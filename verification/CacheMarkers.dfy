/** Placing cache breakpoints on a request's system prompt and messages. */
module CacheMarkers {
  import opened Json

  const EPHEMERAL := Obj(map["type" := Str("ephemeral")])

  function TextBlock(s: string): map<string, Value> { map["type" := Str("text"), "text" := Str(s)] }

  function MarkedText(s: string): Value { Arr([Obj(TextBlock(s)["cache_control" := EPHEMERAL])]) }

  /** Whether a message has somewhere to put a marker. */
  predicate Markable(m: Message) {
    match Get(m, "content")
    case Str(_) => true
    case Arr(items) => items != [] && items[|items| - 1].Obj?
    case _ => false
  }

  /** A string becomes one marked text block; a list gets the marker on its last block. */
  function MarkMessage(m: Message): Message {
    match Get(m, "content")
    case Str(s) => m["content" := MarkedText(s)]
    case Arr(items) =>
      if items != [] && items[|items| - 1].Obj? then
        var last := items[|items| - 1].fields;
        m["content" := Arr(items[..|items| - 1] + [Obj(last["cache_control" := EPHEMERAL])])]
      else m
    case _ => m
  }

  /** Mark a set of positions. */
  function MarkAt(ms: seq<Message>, positions: set<nat>): (r: seq<Message>)
    ensures |r| == |ms|
    ensures forall i :: 0 <= i < |ms| ==> r[i] == if i in positions then MarkMessage(ms[i]) else ms[i]
  {
    seq(|ms|, i requires 0 <= i < |ms| => if i in positions then MarkMessage(ms[i]) else ms[i])
  }

  function MarkSystem(system: Value): Value {
    if system.Str? && system.s != "" then MarkedText(system.s) else system
  }

  /** The strategic positions among `n` messages: a third, two thirds, and the last. */
  function Strategic(n: nat): set<nat>
    requires n > 0
  {
    (if n >= 3 then {n / 3, 2 * n / 3} else {}) + {n - 1}
  }

  /** Positions below `pos` where a marker goes. */
  function PlacedBefore(ms: seq<Message>, positions: set<nat>, pos: nat): nat
    requires pos <= |ms|
  {
    if pos == 0 then 0
    else PlacedBefore(ms, positions, pos - 1) + if pos - 1 in positions && Markable(ms[pos - 1]) then 1 else 0
  }

  lemma {:induction false} PlacedAtMost(ms: seq<Message>, positions: set<nat>, pos: nat)
    requires pos <= |ms|
    ensures PlacedBefore(ms, positions, pos) <= |set j | j in positions && j < pos|
  {
    if pos > 0 {
      PlacedAtMost(ms, positions, pos - 1);
      var below, now := set j | j in positions && j < pos - 1, set j | j in positions && j < pos;
      if pos - 1 in positions {
        assert now == below + {pos - 1};
      } else {
        assert now == below;
      }
    }
  }

  lemma {:induction false} StrategicFew(n: nat)
    requires n > 0
    ensures |Strategic(n)| <= 3 && forall p :: p in Strategic(n) ==> p < n
  {
    if n >= 3 {
      assert Strategic(n) == {n / 3} + {2 * n / 3} + {n - 1};
    }
  }

  /** With three positions, at most two markers can have been placed before any of them. */
  lemma {:induction false} RoomAt(ms: seq<Message>, positions: set<nat>, pos: nat)
    requires pos < |ms| && pos in positions && |positions| <= 3
    ensures PlacedBefore(ms, positions, pos) <= 2
  {
    PlacedAtMost(ms, positions, pos);
    var below := set j | j in positions && j < pos;
    assert below <= positions - {pos};
    CardinalityMonotone(below, positions - {pos});
  }

  lemma {:induction false} CardinalityMonotone(a: set<nat>, b: set<nat>)
    requires a <= b
    ensures |a| <= |b|
  {
    if a != {} {
      var x :| x in a;
      CardinalityMonotone(a - {x}, b - {x});
    }
  }

  /** `inject_cache_markers`: every strategic position is served, so the early exit never happens. */
  method InjectCacheMarkers(system: Value, messages: seq<Message>) returns (sys: Value, msgs: seq<Message>)
    ensures sys == MarkSystem(system)
    ensures msgs == if messages == [] then [] else MarkAt(messages, Strategic(|messages|))
  {
    hide MarkMessage;
    hide MarkedText;
    sys := system;
    if system.Str? && system.s != "" {
      sys := MarkedText(system.s);
    }
    if messages == [] {
      return sys, messages;
    }
    var n := |messages|;
    var positions: set<nat> := {};
    if n >= 3 {
      positions := {n / 3, 2 * n / 3};
    }
    positions := positions + {n - 1};
    assert positions == Strategic(n);
    StrategicFew(n);
    msgs := MarkPositions(messages, positions);
    assert msgs == MarkAt(messages, Strategic(n));
  }

  /** The marker loop, in position order; its early exit at four markers is there and never taken. */
  method MarkPositions(messages: seq<Message>, positions: set<nat>) returns (msgs: seq<Message>)
    requires |positions| <= 3
    ensures msgs == MarkAt(messages, positions)
  {
    hide MarkMessage;
    hide Markable;
    msgs := messages;
    var markersPlaced := 1;
    for pos := 0 to |messages|
      invariant |msgs| == |messages|
      invariant markersPlaced == 1 + PlacedBefore(messages, positions, pos)
      invariant forall j :: 0 <= j < |messages| ==>
                  msgs[j] == if j < pos && j in positions then MarkMessage(messages[j]) else messages[j]
    {
      if pos in positions {
        RoomAt(messages, positions, pos);
        if markersPlaced >= 4 {
          break;
        }
        var placed: nat;
        msgs, placed := MarkInPlace(msgs, pos);
        markersPlaced := markersPlaced + placed;
      }
    }
    assert msgs == MarkAt(messages, positions);
  }

  /** The last user message before the final one, if there is one at or below `i`. */
  function LastUserAt(ms: seq<Message>, i: int): set<nat>
    requires -1 <= i < |ms|
    decreases i + 1
  {
    if i < 0 then {} else if Get(ms[i], "role") == Str("user") then {i} else LastUserAt(ms, i - 1)
  }

  /** The positions Claude Code marks: the last message, and with three or more the user message before it. */
  function ClaudeCode(ms: seq<Message>): set<nat>
    requires ms != []
  {
    {|ms| - 1} + if |ms| >= 3 then LastUserAt(ms, |ms| - 2) else {}
  }

  /** The marking both injectors do in place. */
  method MarkInPlace(ms: seq<Message>, pos: nat) returns (r: seq<Message>, placed: nat)
    requires pos < |ms|
    ensures r == ms[pos := MarkMessage(ms[pos])] && placed == if Markable(ms[pos]) then 1 else 0
  {
    r, placed := ms, 0;
    var content := Get(ms[pos], "content");
    if content.Str? {
      r, placed := ms[pos := ms[pos]["content" := MarkedText(content.s)]], 1;
    } else if content.Arr? && content.items != [] {
      var last := content.items[|content.items| - 1];
      if last.Obj? {
        var marked := Obj(last.fields["cache_control" := EPHEMERAL]);
        r, placed := ms[pos := ms[pos]["content" := Arr(content.items[..|content.items| - 1] + [marked])]], 1;
      }
    }
  }

  /** `inject_cc_style_markers`. */
  method InjectClaudeCodeMarkers(system: Value, messages: seq<Message>) returns (sys: Value, msgs: seq<Message>)
    ensures sys == MarkSystem(system)
    ensures msgs == if messages == [] then [] else MarkAt(messages, ClaudeCode(messages))
  {
    hide MarkMessage;
    hide MarkSystem;
    sys := MarkSystem(system);
    if messages == [] {
      return sys, messages;
    }
    var n := |messages|;
    var placed: nat;
    msgs, placed := MarkInPlace(messages, n - 1);
    var markersPlaced := 1 + placed;
    if n >= 3 && markersPlaced < 4 {
      var i := n - 2;
      while i >= 0
        invariant -1 <= i <= n - 2
        invariant LastUserAt(messages, n - 2) == LastUserAt(messages, i)
        invariant msgs == messages[n - 1 := MarkMessage(messages[n - 1])]
      {
        if Get(msgs[i], "role") == Str("user") {
          msgs, placed := MarkInPlace(msgs, i);
          markersPlaced := markersPlaced + placed;
          assert msgs == MarkAt(messages, {n - 1} + {i});
          return;
        }
        i := i - 1;
      }
    }
    assert msgs == MarkAt(messages, {n - 1});
  }

  // ----- How many breakpoints -----

  function BlockMarks(b: Value): nat {
    if b.Obj? && "cache_control" in b.fields then 1 else 0
  }

  function CountMarks(items: seq<Value>): nat {
    if items == [] then 0 else CountMarks(items[..|items| - 1]) + BlockMarks(items[|items| - 1])
  }

  function ContentMarks(v: Value): nat {
    if v.Arr? then CountMarks(v.items) else 0
  }

  function MessagesMarks(ms: seq<Message>): nat {
    if ms == [] then 0 else MessagesMarks(ms[..|ms| - 1]) + ContentMarks(Get(ms[|ms| - 1], "content"))
  }

  lemma {:induction false} CountMarksSnoc(items: seq<Value>, b: Value)
    ensures CountMarks(items + [b]) == CountMarks(items) + BlockMarks(b)
  {
    assert (items + [b])[..|items|] == items;
  }

  /** Marking a marker-free message adds exactly one breakpoint where that is possible. */
  lemma {:induction false} MarkAddsOne(m: Message)
    requires ContentMarks(Get(m, "content")) == 0
    ensures ContentMarks(Get(MarkMessage(m), "content")) == if Markable(m) then 1 else 0
  {
    match Get(m, "content")
    case Str(s) =>
      var none: seq<Value> := [];
      var block := Obj(TextBlock(s)["cache_control" := EPHEMERAL]);
      CountMarksSnoc(none, block);
      assert none + [block] == [block];
    case Arr(items) =>
      if Markable(m) {
        var front, last := items[..|items| - 1], items[|items| - 1];
        CountMarksSnoc(front, Obj(last.fields["cache_control" := EPHEMERAL]));
      }
    case _ =>
  }

  /** The breakpoints placed among marker-free messages are counted by `PlacedBefore`. */
  lemma {:induction false} MarksAreCounted(ms: seq<Message>, positions: set<nat>, n: nat)
    requires n <= |ms| && forall i :: 0 <= i < |ms| ==> ContentMarks(Get(ms[i], "content")) == 0
    ensures MessagesMarks(MarkAt(ms, positions)[..n]) == PlacedBefore(ms, positions, n)
  {
    hide MarkMessage;
    hide ContentMarks;
    if n > 0 {
      MarksAreCounted(ms, positions, n - 1);
      var marked := MarkAt(ms, positions);
      assert marked[..n][..n - 1] == marked[..n - 1];
      MarkAddsOne(ms[n - 1]);
    }
  }

  // ----- Where the breakpoints are -----

  /** The breakpoint itself, and everything else about the message as it was. */
  lemma {:induction false} MarkMeaning(m: Message)
    ensures forall k :: k != "content" ==> Get(MarkMessage(m), k) == Get(m, k)
    ensures var marker := Obj(map["type" := Str("ephemeral")]);
            match Get(m, "content")
            case Str(s) =>
              Get(MarkMessage(m), "content")
              == Arr([Obj(map["type" := Str("text"), "text" := Str(s), "cache_control" := marker])])
            case Arr(items) =>
              if items == [] || !items[|items| - 1].Obj? then MarkMessage(m) == m
              else
                && Get(MarkMessage(m), "content").Arr?
                && var marked := Get(MarkMessage(m), "content").items;
                   && |marked| == |items| && marked[..|items| - 1] == items[..|items| - 1]
                   && marked[|items| - 1].Obj?
                   && var fields := marked[|items| - 1].fields;
                      && Get(fields, "cache_control") == marker
                      && forall k :: k != "cache_control" ==> Get(fields, k) == Get(items[|items| - 1].fields, k)
            case _ => MarkMessage(m) == m
  {
    match Get(m, "content")
    case Str(s) =>
      assert TextBlock(s)["cache_control" := EPHEMERAL]
             == map["type" := Str("text"), "text" := Str(s), "cache_control" := Obj(map["type" := Str("ephemeral")])];
    case Arr(items) =>
      if Markable(m) {
        var marked := items[..|items| - 1] + [Obj(items[|items| - 1].fields["cache_control" := EPHEMERAL])];
        assert Get(MarkMessage(m), "content") == Arr(marked);
      }
    case _ =>
  }

  /** A string of a system prompt becomes one marked text block, anything else stays. */
  lemma SystemMeaning(system: Value)
    ensures MarkSystem(system)
            == if system.Str? && system.s != ""
               then Arr([Obj(map["type" := Str("text"), "text" := system,
                                 "cache_control" := Obj(map["type" := Str("ephemeral")])])])
               else system
  {
    if system.Str? && system.s != "" {
      assert TextBlock(system.s)["cache_control" := EPHEMERAL]
             == map["type" := Str("text"), "text" := system, "cache_control" := Obj(map["type" := Str("ephemeral")])];
    }
  }

  /** The last message, and with three or more those a third and two thirds of the way through. */
  predicate AtThirdsOrEnd(n: nat, i: nat) {
    i + 1 == n || (n >= 3 && (3 * i <= n < 3 * i + 3 || 3 * i <= 2 * n < 3 * i + 3))
  }

  lemma {:induction false} StrategicPositions(n: nat, i: nat)
    requires n > 0
    ensures i in Strategic(n) <==> AtThirdsOrEnd(n, i)
  {
  }

  /** The last message, and with three or more the last user message before it. */
  ghost predicate LastOrUserBefore(ms: seq<Message>, i: nat)
    requires i < |ms|
  {
    || i + 1 == |ms|
    || (|ms| >= 3 && IsUser(ms[i]) && forall j :: i < j < |ms| - 1 ==> !IsUser(ms[j]))
  }

  predicate IsUser(m: Message) { Get(m, "role") == Str("user") }

  lemma {:induction false} LastUserIs(ms: seq<Message>, top: int, i: nat)
    requires -1 <= top < |ms| && i < |ms|
    ensures i in LastUserAt(ms, top) <==> i <= top && IsUser(ms[i]) && forall j :: i < j <= top ==> !IsUser(ms[j])
    decreases top + 1
  {
    if top >= 0 {
      LastUserIs(ms, top - 1, i);
    }
  }

  lemma {:induction false} ClaudeCodePositions(ms: seq<Message>, i: nat)
    requires i < |ms|
    ensures i in ClaudeCode(ms) <==> LastOrUserBefore(ms, i)
  {
    hide LastUserAt;
    if |ms| >= 3 {
      LastUserIs(ms, |ms| - 2, i);
    }
  }

  /** Among marker-free messages each placement puts one breakpoint on each of its messages that can take one. */
  lemma {:induction false} BreakpointsAt(ms: seq<Message>, i: nat)
    requires i < |ms| && ContentMarks(Get(ms[i], "content")) == 0
    ensures ContentMarks(Get(MarkAt(ms, Strategic(|ms|))[i], "content"))
            == if Markable(ms[i]) && AtThirdsOrEnd(|ms|, i) then 1 else 0
    ensures ContentMarks(Get(MarkAt(ms, ClaudeCode(ms))[i], "content"))
            == if Markable(ms[i]) && LastOrUserBefore(ms, i) then 1 else 0
  {
    hide Strategic;
    hide ClaudeCode;
    hide MarkMessage;
    hide ContentMarks;
    hide LastOrUserBefore;
    StrategicPositions(|ms|, i);
    ClaudeCodePositions(ms, i);
    MarkAddsOne(ms[i]);
  }

  /** The set counted by `PlacedBefore` never exceeds the positions asked for. */
  lemma {:induction false} PlacedWithin(ms: seq<Message>, positions: set<nat>)
    ensures PlacedBefore(ms, positions, |ms|) <= |positions|
  {
    PlacedAtMost(ms, positions, |ms|);
    var below := set j | j in positions && j < |ms|;
    CardinalityMonotone(below, positions);
  }

  lemma {:induction false} SystemMarks(system: Value)
    requires ContentMarks(system) == 0
    ensures ContentMarks(MarkSystem(system)) == if system.Str? && system.s != "" then 1 else 0
  {
    if system.Str? && system.s != "" {
      var none: seq<Value> := [];
      var block := Obj(TextBlock(system.s)["cache_control" := EPHEMERAL]);
      CountMarksSnoc(none, block);
      assert none + [block] == [block];
    }
  }

  /** Never more than the provider's four breakpoints in all; Claude Code's placement uses three at most. */
  lemma {:induction false} AtMostFourBreakpoints(system: Value, ms: seq<Message>)
    requires ms != [] && ContentMarks(system) == 0
    requires forall i :: 0 <= i < |ms| ==> ContentMarks(Get(ms[i], "content")) == 0
    ensures ContentMarks(MarkSystem(system)) + MessagesMarks(MarkAt(ms, Strategic(|ms|))) <= 4
    ensures ContentMarks(MarkSystem(system)) + MessagesMarks(MarkAt(ms, ClaudeCode(ms))) <= 3
  {
    hide MarkSystem;
    hide ContentMarks;
    hide MessagesMarks;
    hide PlacedBefore;
    hide Strategic;
    hide ClaudeCode;
    SystemMarks(system);
    StrategicFew(|ms|);
    ClaudeCodeFew(ms);
    var a, b := MarkAt(ms, Strategic(|ms|)), MarkAt(ms, ClaudeCode(ms));
    assert a[..|ms|] == a && b[..|ms|] == b;
    MarksAreCounted(ms, Strategic(|ms|), |ms|);
    MarksAreCounted(ms, ClaudeCode(ms), |ms|);
    PlacedWithin(ms, Strategic(|ms|));
    PlacedWithin(ms, ClaudeCode(ms));
  }

  lemma {:induction false} ClaudeCodeFew(ms: seq<Message>)
    requires ms != []
    ensures |ClaudeCode(ms)| <= 2
  {
    if |ms| >= 3 {
      LastUserFew(ms, |ms| - 2);
    }
  }

  lemma {:induction false} LastUserFew(ms: seq<Message>, i: int)
    requires -1 <= i < |ms|
    ensures |LastUserAt(ms, i)| <= 1
    decreases i + 1
  {
    if i >= 0 {
      LastUserFew(ms, i - 1);
    }
  }

  // ----- Erasing the markers -----

  function EraseBlock(b: Value): Value {
    if b.Obj? then Obj(b.fields - {"cache_control"}) else b
  }

  function EraseBlocks(items: seq<Value>): (r: seq<Value>)
    ensures |r| == |items| && forall i :: 0 <= i < |items| ==> r[i] == EraseBlock(items[i])
  {
    seq(|items|, i requires 0 <= i < |items| => EraseBlock(items[i]))
  }

  function EraseContent(v: Value): Value {
    if v.Arr? then Arr(EraseBlocks(v.items)) else v
  }

  /** The one identification: a string is a single text block. */
  function AsBlocks(v: Value): Value {
    if v.Str? then Arr([Obj(TextBlock(v.s))]) else v
  }

  lemma {:induction false} NothingToErase(items: seq<Value>)
    requires CountMarks(items) == 0
    ensures EraseBlocks(items) == items
  {
    if items != [] {
      var front, last := items[..|items| - 1], items[|items| - 1];
      NothingToErase(front);
      if last.Obj? {
        assert last.fields - {"cache_control"} == last.fields;
      }
      assert forall i :: 0 <= i < |front| ==> EraseBlocks(front)[i] == front[i];
    }
  }

  lemma {:induction false} EraseMarkedText(s: string)
    ensures EraseContent(MarkedText(s)) == AsBlocks(Str(s))
  {
    assert TextBlock(s)["cache_control" := EPHEMERAL] - {"cache_control"} == TextBlock(s);
  }

  /** Erasing the markers from a marked message gives the message back, up to strings and text blocks. */
  lemma {:induction false} EraseUndoesMark(m: Message)
    requires ContentMarks(Get(m, "content")) == 0
    ensures EraseContent(AsBlocks(Get(MarkMessage(m), "content"))) == AsBlocks(Get(m, "content"))
    ensures forall k :: k != "content" ==> Get(MarkMessage(m), k) == Get(m, k)
  {
    match Get(m, "content")
    case Str(s) => EraseMarkedText(s);
    case Arr(items) =>
      NothingToErase(items);
      if Markable(m) {
        var front, last := items[..|items| - 1], items[|items| - 1];
        var marked := last.fields["cache_control" := EPHEMERAL];
        assert BlockMarks(last) == 0;
        assert marked - {"cache_control"} == last.fields;
        var result := front + [Obj(marked)];
        assert forall i :: 0 <= i < |front| ==> EraseBlocks(items)[i] == EraseBlock(front[i]);
        assert EraseBlocks(result) == items;
      }
    case _ =>
  }

  /** Erasing every marker recovers the system prompt and every message, wherever the markers went. */
  lemma {:induction false} EraseRecovers(system: Value, ms: seq<Message>, positions: set<nat>)
    requires ContentMarks(system) == 0
    requires forall i :: 0 <= i < |ms| ==> ContentMarks(Get(ms[i], "content")) == 0
    ensures EraseContent(AsBlocks(MarkSystem(system))) == AsBlocks(system)
    ensures forall i :: 0 <= i < |ms| ==>
              EraseContent(AsBlocks(Get(MarkAt(ms, positions)[i], "content"))) == AsBlocks(Get(ms[i], "content"))
    ensures forall i, k :: 0 <= i < |ms| && k != "content" ==> Get(MarkAt(ms, positions)[i], k) == Get(ms[i], k)
  {
    EraseUnmarked(system);
    if system.Str? && system.s != "" {
      EraseMarkedText(system.s);
    }
    forall i | 0 <= i < |ms|
      ensures EraseContent(AsBlocks(Get(MarkAt(ms, positions)[i], "content"))) == AsBlocks(Get(ms[i], "content"))
      ensures forall k :: k != "content" ==> Get(MarkAt(ms, positions)[i], k) == Get(ms[i], k)
    {
      EraseUndoesMark(ms[i]);
      EraseUnmarked(Get(ms[i], "content"));
    }
  }

  lemma {:induction false} EraseUnmarked(v: Value)
    requires ContentMarks(v) == 0
    ensures EraseContent(AsBlocks(v)) == AsBlocks(v)
  {
    if v.Arr? {
      NothingToErase(v.items);
    } else if v.Str? {
      assert TextBlock(v.s) - {"cache_control"} == TextBlock(v.s);
      assert EraseBlocks([Obj(TextBlock(v.s))]) == [Obj(TextBlock(v.s))];
    }
  }
}
