/** Grouping a session transcript's events into request turns. */
module Transcript {
  import opened Json
  import opened Selection
  import opened Accounting

  datatype Usage = Usage(output: int, input: int, cacheRead: int, cacheWrite: int)
  {
    function Max(o: Usage): Usage {
      Usage(Json.Max(output, o.output), Json.Max(input, o.input), Json.Max(cacheRead, o.cacheRead),
            Json.Max(cacheWrite, o.cacheWrite))
    }
  }

  /** A transcript line: a user message, an assistant message with a request id, or anything else. */
  datatype Event =
    | UserEvent(message: Message)
    | AssistantEvent(requestId: string, model: string, timestamp: int, content: Value, usage: Usage)
    | OtherEvent

  /** The assistant group being collected. */
  datatype Group = Group(requestId: string, model: string, timestamp: int, blocks: seq<Value>, seen: set<string>,
                         usage: Usage)

  datatype State = State(turns: seq<ReplayTurn>, pending: seq<Message>, group: Option<Group>)

  const NO_USAGE := Usage(0, 0, 0, 0)

  function ObjectsOnly(items: seq<Value>): seq<Value> {
    if items == [] then []
    else ObjectsOnly(items[..|items| - 1]) + if items[|items| - 1].Obj? then [items[|items| - 1]] else []
  }

  /** `_assistant_blocks_from_content`. */
  function BlocksFromContent(content: Value): seq<Value> {
    match content
    case Str(s) => if s == "" then [] else [Obj(map["type" := Str("text"), "text" := Str(s)])]
    case Arr(items) => ObjectsOnly(items)
    case _ => []
  }

  /** The turn a finished group becomes. */
  function TurnFrom(g: Group, inputs: seq<Message>): ReplayTurn {
    var content := if g.blocks == [] then Str("") else Arr(g.blocks);
    ReplayTurn(g.requestId, g.model, g.timestamp, inputs,
               map["role" := Str("assistant"), "content" := content],
               g.usage.output, g.usage.input, g.usage.cacheRead, g.usage.cacheWrite)
  }

  /** `_finalize_group`. */
  function Finalize(s: State): seq<ReplayTurn> {
    if s.group.None? then s.turns else s.turns + [TurnFrom(s.group.value, s.pending)]
  }

  /** Append the blocks whose key has not been seen, in order. */
  function AddBlocks(key: Value -> string, blocks: seq<Value>, seen: set<string>, more: seq<Value>):
      (seq<Value>, set<string>)
  {
    if more == [] then (blocks, seen)
    else
      var (b, s) := AddBlocks(key, blocks, seen, more[..|more| - 1]);
      var last := more[|more| - 1];
      if key(last) in s then (b, s) else (b + [last], s + {key(last)})
  }

  function Absorb(key: Value -> string, g: Group, e: Event): Group
    requires e.AssistantEvent?
  {
    var (blocks, seen) := AddBlocks(key, g.blocks, g.seen, BlocksFromContent(e.content));
    g.(blocks := blocks, seen := seen, usage := g.usage.Max(e.usage))
  }

  function OpenGroup(e: Event): Group
    requires e.AssistantEvent?
  {
    Group(e.requestId, e.model, e.timestamp, [], {}, NO_USAGE)
  }

  /** One event of `load_session_replay`. */
  function Step(key: Value -> string, s: State, e: Event): State {
    match e
    case OtherEvent => s
    case UserEvent(message) => State(Finalize(s), [message], None)
    case AssistantEvent(requestId, _, _, _, _) =>
      if s.group.Some? && s.group.value.requestId == requestId then
        s.(group := Some(Absorb(key, s.group.value, e)))
      else
        State(Finalize(s), if s.group.Some? then [] else s.pending, Some(Absorb(key, OpenGroup(e), e)))
  }

  function Run(key: Value -> string, events: seq<Event>): State {
    if events == [] then State([], [], None)
    else Step(key, Run(key, events[..|events| - 1]), events[|events| - 1])
  }

  // ----- What the turns are -----

  function Relevant(events: seq<Event>): (es: seq<Event>)
    ensures forall i :: 0 <= i < |es| ==> !es[i].OtherEvent?
  {
    if events == [] then []
    else
      Relevant(events[..|events| - 1])
      + if events[|events| - 1].OtherEvent? then [] else [events[|events| - 1]]
  }

  /** Event `i` goes on with the assistant run of the event before it. */
  predicate Continues(es: seq<Event>, i: nat)
    requires i < |es|
  {
    && i > 0
    && es[i].AssistantEvent? && es[i - 1].AssistantEvent?
    && es[i].requestId == es[i - 1].requestId
  }

  predicate RunStart(es: seq<Event>, i: nat)
    requires i < |es|
  {
    es[i].AssistantEvent? && !Continues(es, i)
  }

  /** The first event from `j` on that does not continue the run. */
  function RunEnd(es: seq<Event>, j: nat): (end: nat)
    requires j <= |es|
    ensures j <= end <= |es|
    decreases |es| - j
  {
    if j < |es| && Continues(es, j) then RunEnd(es, j + 1) else j
  }

  function AllBlocks(run: seq<Event>): seq<Value>
    requires forall i :: 0 <= i < |run| ==> run[i].AssistantEvent?
  {
    if run == [] then [] else AllBlocks(run[..|run| - 1]) + BlocksFromContent(run[|run| - 1].content)
  }

  function MaxUsage(run: seq<Event>): Usage
    requires forall i :: 0 <= i < |run| ==> run[i].AssistantEvent?
  {
    if run == [] then NO_USAGE else MaxUsage(run[..|run| - 1]).Max(run[|run| - 1].usage)
  }

  function Keys(key: Value -> string, blocks: seq<Value>): set<string> {
    set b | b in blocks :: key(b)
  }

  /** The blocks that are the first with their key. */
  function Dedup(key: Value -> string, blocks: seq<Value>): seq<Value> {
    if blocks == [] then []
    else
      var front, last := blocks[..|blocks| - 1], blocks[|blocks| - 1];
      Dedup(key, front) + if key(last) in Keys(key, front) then [] else [last]
  }

  /** What a run of assistant events adds up to. */
  function GroupOf(key: Value -> string, run: seq<Event>): Group
    requires run != [] && forall i :: 0 <= i < |run| ==> run[i].AssistantEvent?
  {
    Group(run[0].requestId, run[0].model, run[0].timestamp,
          Dedup(key, AllBlocks(run)), Keys(key, AllBlocks(run)), MaxUsage(run))
  }

  /** The user message a run starting at `i` answers, if a user event comes right before it. */
  function InputsAt(es: seq<Event>, i: nat): seq<Message>
    requires i <= |es|
  {
    if i > 0 && es[i - 1].UserEvent? then [es[i - 1].message] else []
  }

  lemma {:induction false} RunIsAssistant(es: seq<Event>, i: nat, j: nat)
    requires i < j <= |es| && es[i].AssistantEvent? && forall k :: i < k < j ==> Continues(es, k)
    ensures forall k :: i <= k < j ==> es[k].AssistantEvent? && es[k].requestId == es[i].requestId
  {
    if i < j - 1 {
      RunIsAssistant(es, i, j - 1);
      assert Continues(es, j - 1);
    }
  }

  lemma {:induction false} RunEndContinues(es: seq<Event>, j: nat)
    requires j <= |es|
    ensures forall k :: j <= k < RunEnd(es, j) ==> Continues(es, k)
    decreases |es| - j
  {
    if j < |es| && Continues(es, j) {
      RunEndContinues(es, j + 1);
    }
  }

  /** The turn whose run starts at `i`. */
  function TurnAt(key: Value -> string, es: seq<Event>, i: nat): ReplayTurn
    requires i < |es| && RunStart(es, i)
  {
    var end := RunEnd(es, i + 1);
    RunEndContinues(es, i + 1);
    RunIsAssistant(es, i, end);
    TurnFrom(GroupOf(key, es[i..end]), InputsAt(es, i))
  }

  /** One turn for each maximal run that starts among the first `n` events. */
  function TurnsUpTo(key: Value -> string, es: seq<Event>, n: nat): seq<ReplayTurn>
    requires n <= |es|
  {
    if n == 0 then []
    else TurnsUpTo(key, es, n - 1) + if RunStart(es, n - 1) then [TurnAt(key, es, n - 1)] else []
  }

  function Turns(key: Value -> string, events: seq<Event>): seq<ReplayTurn> {
    TurnsUpTo(key, Relevant(events), |Relevant(events)|)
  }

  // ----- The state machine computes exactly those turns -----

  lemma {:induction false} RunIgnoresOthers(key: Value -> string, events: seq<Event>)
    ensures Run(key, events) == Run(key, Relevant(events))
  {
    if events != [] {
      var front := events[..|events| - 1];
      RunIgnoresOthers(key, front);
      if events[|events| - 1].OtherEvent? {
        assert Relevant(events) == Relevant(front);
      } else {
        assert Relevant(events) == Relevant(front) + [events[|events| - 1]];
        assert Relevant(events)[..|Relevant(events)| - 1] == Relevant(front);
      }
    }
  }

  lemma {:induction false} DedupSnoc(key: Value -> string, blocks: seq<Value>, last: Value)
    ensures Keys(key, blocks + [last]) == Keys(key, blocks) + {key(last)}
    ensures Dedup(key, blocks + [last]) == Dedup(key, blocks) + if key(last) in Keys(key, blocks) then [] else [last]
  {
    var all := blocks + [last];
    assert all[..|all| - 1] == blocks;
    assert forall b :: b in all <==> b in blocks || b == last;
  }

  lemma {:induction false} AddBlocksDedups(key: Value -> string, had: seq<Value>, more: seq<Value>)
    ensures AddBlocks(key, Dedup(key, had), Keys(key, had), more) == (Dedup(key, had + more), Keys(key, had + more))
  {
    if more == [] {
      assert had + more == had;
    } else {
      var front, last := more[..|more| - 1], more[|more| - 1];
      AddBlocksDedups(key, had, front);
      assert had + more == (had + front) + [last];
      DedupSnoc(key, had + front, last);
      if key(last) in Keys(key, had + front) {
        assert Keys(key, had + front) + {key(last)} == Keys(key, had + front);
        assert Dedup(key, had + front) + [] == Dedup(key, had + front);
      }
    }
  }

  /** Absorbing one more event extends the run. */
  lemma {:induction false} AbsorbExtends(key: Value -> string, run: seq<Event>, e: Event)
    requires run != [] && (forall i :: 0 <= i < |run| ==> run[i].AssistantEvent?) && e.AssistantEvent?
    ensures Absorb(key, GroupOf(key, run), e) == GroupOf(key, run + [e])
  {
    assert (run + [e])[..|run|] == run;
    AddBlocksDedups(key, AllBlocks(run), BlocksFromContent(e.content));
  }

  lemma {:induction false} OpenIsRun(key: Value -> string, e: Event)
    requires e.AssistantEvent?
    ensures Absorb(key, OpenGroup(e), e) == GroupOf(key, [e])
  {
    var none: seq<Value> := [];
    AddBlocksDedups(key, none, BlocksFromContent(e.content));
    assert Keys(key, none) == {} && Dedup(key, none) == [];
    assert none + BlocksFromContent(e.content) == BlocksFromContent(e.content);
    var run := [e];
    assert run[..|run| - 1] == [];
    assert AllBlocks(run) == none + BlocksFromContent(e.content);
    assert MaxUsage(run) == NO_USAGE.Max(e.usage);
  }

  lemma {:induction false} RunEndIs(es: seq<Event>, j: nat, end: nat)
    requires j <= end <= |es| && forall k :: j <= k < end ==> Continues(es, k)
    requires end == |es| || !Continues(es, end)
    ensures RunEnd(es, j) == end
    decreases end - j
  {
    if j < end {
      RunEndIs(es, j + 1, end);
    }
  }

  lemma {:induction false} NoStarts(key: Value -> string, es: seq<Event>, a: nat, b: nat)
    requires a <= b <= |es| && forall k :: a <= k < b ==> !RunStart(es, k)
    ensures TurnsUpTo(key, es, b) == TurnsUpTo(key, es, a)
    decreases b
  {
    if a < b {
      NoStarts(key, es, a, b - 1);
    }
  }

  /** The run in progress after `m` events started at `s`; none is in progress when `s == m`. */
  ghost predicate InRun(es: seq<Event>, s: nat, m: nat) {
    && s <= m <= |es|
    && (s < m ==> RunStart(es, s))
    && (forall k :: s < k < m ==> Continues(es, k))
  }

  lemma {:induction false} RunEvents(es: seq<Event>, s: nat, m: nat)
    requires s < m && InRun(es, s, m)
    ensures forall i :: 0 <= i < |es[s..m]| ==> es[s..m][i].AssistantEvent? && es[s..m][i].requestId == es[s].requestId
  {
    RunIsAssistant(es, s, m);
  }

  /** A run that ends is a turn. */
  lemma {:induction false} CloseRun(key: Value -> string, es: seq<Event>, s: nat, m: nat)
    requires s < m && InRun(es, s, m) && (m == |es| || !Continues(es, m))
    ensures RunStart(es, s) && TurnsUpTo(key, es, m) == TurnsUpTo(key, es, s) + [TurnAt(key, es, s)]
    ensures RunEnd(es, s + 1) == m
  {
    hide TurnAt;
    RunEndIs(es, s + 1, m);
    NoStarts(key, es, s + 1, m);
  }

  ghost predicate Shape(key: Value -> string, es: seq<Event>, m: nat, s: nat, st: State) {
    && InRun(es, s, m)
    && st.turns == TurnsUpTo(key, es, s)
    && st.pending == InputsAt(es, s)
    && (if s == m then st.group.None? && (m == 0 || es[m - 1].UserEvent?)
        else (forall i :: 0 <= i < |es[s..m]| ==> es[s..m][i].AssistantEvent?) &&
             st.group == Some(GroupOf(key, es[s..m])))
  }

  /** Finalizing closes the run in progress. */
  lemma {:induction false} FinalizeCloses(key: Value -> string, es: seq<Event>, m: nat, s: nat, st: State)
    requires Shape(key, es, m, s, st) && (m == |es| || !Continues(es, m))
    ensures Finalize(st) == TurnsUpTo(key, es, m)
  {
    if s < m {
      CloseRun(key, es, s, m);
    }
  }

  lemma GroupId(key: Value -> string, run: seq<Event>)
    requires run != [] && forall i :: 0 <= i < |run| ==> run[i].AssistantEvent?
    ensures GroupOf(key, run).requestId == run[0].requestId
  {
  }

  lemma {:induction false} StepKeepsShape(key: Value -> string, es: seq<Event>, m: nat, s: nat, st: State)
    returns (s': nat)
    requires Shape(key, es, m, s, st) && m < |es| && !es[m].OtherEvent?
    ensures Shape(key, es, m + 1, s', Step(key, st, es[m]))
  {
    hide Finalize;
    hide Absorb;
    hide GroupOf;
    hide TurnsUpTo;
    var e := es[m];
    if s < m {
      GroupId(key, es[s..m]);
    }
    if e.UserEvent? {
      FinalizeCloses(key, es, m, s, st);
      NoStarts(key, es, m, m + 1);
      s' := m + 1;
    } else if s < m && es[s].requestId == e.requestId {
      RunEvents(es, s, m);
      assert es[s..m][m - 1 - s] == es[m - 1];
      assert es[s..m + 1] == es[s..m] + [e];
      AbsorbExtends(key, es[s..m], e);
      s' := s;
    } else {
      if s < m {
        RunEvents(es, s, m);
        assert es[s..m][m - 1 - s] == es[m - 1];
      }
      FinalizeCloses(key, es, m, s, st);
      OpenIsRun(key, e);
      assert es[m..m + 1] == [e];
      s' := m;
    }
  }

  lemma ShapeAtStart(key: Value -> string, es: seq<Event>)
    ensures Shape(key, es, 0, 0, State([], [], None))
  {
  }

  lemma {:induction false} RunShape(key: Value -> string, es: seq<Event>, m: nat) returns (s: nat)
    requires m <= |es| && forall i :: 0 <= i < |es| ==> !es[i].OtherEvent?
    ensures Shape(key, es, m, s, Run(key, es[..m]))
  {
    hide Shape;
    hide Step;
    if m == 0 {
      s := 0;
      ShapeAtStart(key, es);
      assert es[..0] == [];
    } else {
      var before := RunShape(key, es, m - 1);
      assert es[..m][..m - 1] == es[..m - 1];
      s := StepKeepsShape(key, es, m - 1, before, Run(key, es[..m - 1]));
    }
  }

  /** The event loop yields exactly the maximal assistant runs, one turn each. */
  lemma {:induction false} GroupingIsMaximalRuns(key: Value -> string, events: seq<Event>)
    ensures Finalize(Run(key, events)) == Turns(key, events)
  {
    var es := Relevant(events);
    RunIgnoresOthers(key, events);
    var s := RunShape(key, es, |es|);
    assert es[..|es|] == es;
    FinalizeCloses(key, es, |es|, s, Run(key, es));
  }

  // ----- The loop itself -----

  /** The block loop: append what has not been seen. */
  method AppendUnseen(key: Value -> string, g: Group, more: seq<Value>) returns (r: Group)
    ensures var (blocks, seen) := AddBlocks(key, g.blocks, g.seen, more); r == g.(blocks := blocks, seen := seen)
  {
    r := g;
    for i := 0 to |more|
      invariant var (blocks, seen) := AddBlocks(key, g.blocks, g.seen, more[..i]);
                r == g.(blocks := blocks, seen := seen)
    {
      assert more[..i + 1][..i] == more[..i];
      var k := key(more[i]);
      if k !in r.seen {
        r := r.(seen := r.seen + {k}, blocks := r.blocks + [more[i]]);
      }
    }
    assert more[..|more|] == more;
  }

  /** `load_session_replay`: nothing if there are no turns, otherwise one turn per maximal run. */
  method LoadSessionReplay(key: Value -> string, events: seq<Event>) returns (replay: Option<seq<ReplayTurn>>)
    ensures replay == if Turns(key, events) == [] then None else Some(Turns(key, events))
  {
    var turns: seq<ReplayTurn>, pending: seq<Message>, group: Option<Group> := [], [], None;
    for i := 0 to |events|
      invariant State(turns, pending, group) == Run(key, events[..i])
    {
      assert events[..i + 1][..i] == events[..i];
      var event := events[i];
      if event.UserEvent? {
        turns := Finalize(State(turns, pending, group));
        group := None;
        pending := [event.message];
      } else if event.AssistantEvent? {
        if group.None? || group.value.requestId != event.requestId {
          var hadGroup := group.Some?;
          turns := Finalize(State(turns, pending, group));
          if hadGroup {
            pending := [];
          }
          group := Some(OpenGroup(event));
        }
        var g := AppendUnseen(key, group.value, BlocksFromContent(event.content));
        group := Some(g.(usage := g.usage.Max(event.usage)));
      }
    }
    assert events[..|events|] == events;
    GroupingIsMaximalRuns(key, events);
    turns := Finalize(State(turns, pending, group));
    replay := if turns == [] then None else Some(turns);
  }

  // ----- What a turn carries -----

  /** `m` is the largest of zero and the values `f` takes on the run. */
  ghost predicate IsMaxOver(run: seq<Event>, f: Event -> int, m: int) {
    && m >= 0 && (forall i :: 0 <= i < |run| ==> f(run[i]) <= m)
    && (m == 0 || exists i :: 0 <= i < |run| && f(run[i]) == m)
  }

  function OutputOf(e: Event): int { if e.AssistantEvent? then e.usage.output else 0 }

  function InputOf(e: Event): int { if e.AssistantEvent? then e.usage.input else 0 }

  function CacheReadOf(e: Event): int { if e.AssistantEvent? then e.usage.cacheRead else 0 }

  function CacheWriteOf(e: Event): int { if e.AssistantEvent? then e.usage.cacheWrite else 0 }

  lemma {:induction false} MaxOverSnoc(run: seq<Event>, e: Event, f: Event -> int, m: int)
    requires IsMaxOver(run, f, m)
    ensures IsMaxOver(run + [e], f, Json.Max(m, f(e)))
  {
    var all := run + [e];
    assert forall i :: 0 <= i < |run| ==> all[i] == run[i];
    assert all[|run|] == e;
    if Json.Max(m, f(e)) == m && m != 0 {
      var i :| 0 <= i < |run| && f(run[i]) == m;
      assert f(all[i]) == m;
    }
  }

  lemma {:induction false} MaxUsageMeaning(run: seq<Event>)
    requires forall i :: 0 <= i < |run| ==> run[i].AssistantEvent?
    ensures IsMaxOver(run, OutputOf, MaxUsage(run).output) && IsMaxOver(run, InputOf, MaxUsage(run).input)
    ensures IsMaxOver(run, CacheReadOf, MaxUsage(run).cacheRead)
    ensures IsMaxOver(run, CacheWriteOf, MaxUsage(run).cacheWrite)
  {
    if run != [] {
      hide IsMaxOver;
      var front, last := run[..|run| - 1], run[|run| - 1];
      MaxUsageMeaning(front);
      assert run == front + [last];
      MaxOverSnoc(front, last, OutputOf, MaxUsage(front).output);
      MaxOverSnoc(front, last, InputOf, MaxUsage(front).input);
      MaxOverSnoc(front, last, CacheReadOf, MaxUsage(front).cacheRead);
      MaxOverSnoc(front, last, CacheWriteOf, MaxUsage(front).cacheWrite);
    }
  }

  /** A turn stands for a maximal run of one request id, with the run's largest usage figures. */
  lemma {:induction false} TurnMeaning(key: Value -> string, es: seq<Event>, i: nat)
    requires i < |es| && RunStart(es, i)
    ensures var turn, end := TurnAt(key, es, i), RunEnd(es, i + 1);
            var run := es[i..end];
            && (forall k :: i <= k < end ==> es[k].AssistantEvent? && es[k].requestId == turn.requestId)
            && (end < |es| ==> es[end].UserEvent? || es[end].OtherEvent? || es[end].requestId != turn.requestId)
            && turn.model == es[i].model && turn.timestamp == es[i].timestamp
            && IsMaxOver(run, OutputOf, turn.outputTokens) && IsMaxOver(run, InputOf, turn.observedInput)
            && IsMaxOver(run, CacheReadOf, turn.observedCacheRead)
            && IsMaxOver(run, CacheWriteOf, turn.observedCacheWrite)
            && SaysAll(key, run, turn.assistant)
  {
    hide IsMaxOver;
    hide SaysAll;
    hide Dedup;
    hide MaxUsage;
    hide AllBlocks;
    hide Keys;
    var end := RunEnd(es, i + 1);
    RunEndContinues(es, i + 1);
    RunIsAssistant(es, i, end);
    RunEndStops(es, i + 1);
    MaxUsageMeaning(es[i..end]);
    MessageSaysAll(key, es[i..end], InputsAt(es, i));
  }

  lemma {:induction false} MessageSaysAll(key: Value -> string, run: seq<Event>, inputs: seq<Message>)
    requires run != [] && forall i :: 0 <= i < |run| ==> run[i].AssistantEvent?
    ensures SaysAll(key, run, TurnFrom(GroupOf(key, run), inputs).assistant)
  {
    hide Dedup;
    hide Picks;
    hide Keys;
    hide Firsts;
    hide AllBlocks;
    DedupMeaning(key, AllBlocks(run));
    DedupEmpty(key, AllBlocks(run));
  }

  /** Where the objects of a list are. */
  ghost function Objects(items: seq<Value>): set<nat> {
    set i: nat | i < |items| && items[i].Obj?
  }

  /** Where the blocks are that no earlier block shares its key with. */
  ghost function Firsts(key: Value -> string, blocks: seq<Value>): set<nat> {
    set i: nat | i < |blocks| && forall j :: 0 <= j < i ==> key(blocks[j]) != key(blocks[i])
  }

  /** An assistant message with the run's first block for each key, in order, or an empty string if there are none. */
  ghost predicate SaysAll(key: Value -> string, run: seq<Event>, m: Message) {
    && m.Keys == {"role", "content"} && Get(m, "role") == Str("assistant")
    && (forall i :: 0 <= i < |run| ==> run[i].AssistantEvent?)
    && if AllBlocks(run) == [] then Get(m, "content") == Str("")
       else
         && Get(m, "content").Arr?
         && var items := Get(m, "content").items;
            && Picks(AllBlocks(run), Firsts(key, AllBlocks(run)), items)
            && Keys(key, items) == Keys(key, AllBlocks(run))
            && (forall i :: 0 <= i < |items| ==> items[i] in AllBlocks(run))
            && forall i, j :: 0 <= i < j < |items| ==> key(items[i]) != key(items[j])
  }

  lemma {:induction false} DedupEmpty(key: Value -> string, blocks: seq<Value>)
    ensures Dedup(key, blocks) == [] <==> blocks == []
  {
    DedupMeaning(key, blocks);
    if blocks != [] {
      assert key(blocks[0]) in Keys(key, Dedup(key, blocks));
    }
  }

  /** An assistant's blocks: a non-empty string is one text block, a list gives its objects, anything else nothing. */
  lemma {:induction false} BlocksMeaning(content: Value)
    ensures var blocks := BlocksFromContent(content);
            && (content.Arr? ==> Picks(content.items, Objects(content.items), blocks))
            && (content.Arr? ==> forall b :: b in blocks <==> b in content.items && b.Obj?)
            && (content.Str? && content.s != "" ==>
                  |blocks| == 1 && blocks[0].Obj? &&
                  Get(blocks[0].fields, "type") == Str("text") && Get(blocks[0].fields, "text") == content)
            && (blocks == [] <==>
                match content
                case Str(s) => s == ""
                case Arr(items) => forall b :: b in items ==> !b.Obj?
                case _ => true)
  {
    if content.Arr? {
      ObjectsOnlyMeaning(content.items);
      assert BlocksFromContent(content) != [] ==> BlocksFromContent(content)[0] in BlocksFromContent(content);
    }
  }

  lemma {:induction false} ObjectsOnlyMeaning(items: seq<Value>)
    ensures Picks(items, Objects(items), ObjectsOnly(items))
    ensures forall b :: b in ObjectsOnly(items) <==> b in items && b.Obj?
  {
    ObjectsOnlyPicks(items);
    if items != [] {
      ObjectsOnlyMeaning(items[..|items| - 1]);
      assert items == items[..|items| - 1] + [items[|items| - 1]];
    }
  }

  lemma {:induction false} ObjectsOnlyPicks(items: seq<Value>)
    ensures Picks(items, Objects(items), ObjectsOnly(items))
  {
    hide Picks;
    if items == [] {
      PicksNone<Value>();
      assert Objects(items) == {};
    } else {
      var front, last := items[..|items| - 1], items[|items| - 1];
      ObjectsOnlyPicks(front);
      PicksSnoc(front, Objects(front), ObjectsOnly(front), last);
      assert items == front + [last];
      assert Objects(items) == Objects(front) + if last.Obj? then {|front|} else {};
      assert Objects(front) + {} == Objects(front) && ObjectsOnly(front) + [] == ObjectsOnly(front);
    }
  }

  lemma {:induction false} RunEndStops(es: seq<Event>, j: nat)
    requires j <= |es|
    ensures RunEnd(es, j) < |es| ==> !Continues(es, RunEnd(es, j))
    decreases |es| - j
  {
    if j < |es| && Continues(es, j) {
      RunEndStops(es, j + 1);
    }
  }

  // ----- Which turns there are -----

  /** Where the events are that are neither blank nor of another kind. */
  ghost function Telling(events: seq<Event>): set<nat> {
    set i: nat | i < |events| && !events[i].OtherEvent?
  }

  lemma {:induction false} RelevantPicks(events: seq<Event>)
    ensures Picks(events, Telling(events), Relevant(events))
  {
    hide Picks;
    if events == [] {
      PicksNone<Event>();
      assert Telling(events) == {};
    } else {
      var front, last := events[..|events| - 1], events[|events| - 1];
      RelevantPicks(front);
      PicksSnoc(front, Telling(front), Relevant(front), last);
      assert events == front + [last];
      assert Telling(events) == Telling(front) + if last.OtherEvent? then {} else {|front|};
      assert Telling(front) + {} == Telling(front) && Relevant(front) + [] == Relevant(front);
    }
  }

  /** There is one turn for each start of a run, in order. */
  lemma {:induction false} TurnsAtStarts(key: Value -> string, es: seq<Event>, n: nat) returns (at: seq<nat>)
    requires n <= |es|
    ensures Lists(at, set i: nat | i < n && RunStart(es, i))
    ensures |at| == |TurnsUpTo(key, es, n)|
    ensures forall j :: 0 <= j < |at| ==> at[j] < n && RunStart(es, at[j])
                                          && TurnsUpTo(key, es, n)[j] == TurnAt(key, es, at[j])
  {
    hide RunStart;
    hide TurnAt;
    at := [];
    if n > 0 {
      at := TurnsAtStarts(key, es, n - 1);
      if RunStart(es, n - 1) {
        at := at + [n - 1];
      }
    }
  }

  lemma {:induction false} SomeTurnIff(key: Value -> string, es: seq<Event>, n: nat)
    requires n <= |es|
    ensures TurnsUpTo(key, es, n) == [] <==> forall i :: 0 <= i < n ==> !es[i].AssistantEvent?
  {
    hide TurnAt;
    if n > 0 {
      SomeTurnIff(key, es, n - 1);
    }
  }

  /** A transcript gives turns exactly when an assistant says something in it. */
  lemma {:induction false} LoadsIff(key: Value -> string, events: seq<Event>)
    ensures Turns(key, events) == [] <==> forall i :: 0 <= i < |events| ==> !events[i].AssistantEvent?
  {
    hide TurnsUpTo;
    hide Relevant;
    hide Picks;
    var es := Relevant(events);
    SomeTurnIff(key, es, |es|);
    RelevantPicks(events);
    forall i | 0 <= i < |events| && events[i].AssistantEvent?
      ensures events[i] in es
    {
      PicksHave(events, Telling(events), es, events[i]);
    }
    forall k | 0 <= k < |es|
      ensures es[k] in events
    {
      PicksHave(events, Telling(events), es, es[k]);
    }
  }

  // ----- User messages -----

  function InputsOf(turns: seq<ReplayTurn>): seq<Message> {
    if turns == [] then [] else InputsOf(turns[..|turns| - 1]) + turns[|turns| - 1].inputs
  }

  /** The user messages directly followed by an assistant event, among the first `n` events. */
  function Answered(es: seq<Event>, n: nat): seq<Message>
    requires n <= |es|
  {
    if n == 0 then []
    else Answered(es, n - 1)
         + if n >= 2 && es[n - 2].UserEvent? && es[n - 1].AssistantEvent? then [es[n - 2].message] else []
  }

  /** Over a session, the turns' user messages are the answered ones, once each, in order. */
  lemma {:induction false} TurnsHoldAnsweredMessages(key: Value -> string, es: seq<Event>, n: nat)
    requires n <= |es|
    ensures InputsOf(TurnsUpTo(key, es, n)) == Answered(es, n)
  {
    hide InputsOf;
    hide TurnAt;
    InputsOfNone();
    if n > 0 {
      TurnsHoldAnsweredMessages(key, es, n - 1);
      var before := TurnsUpTo(key, es, n - 1);
      if RunStart(es, n - 1) {
        InputsOfSnoc(before, TurnAt(key, es, n - 1));
        TurnInputs(key, es, n - 1);
      } else {
        assert TurnsUpTo(key, es, n) == before;
        assert Answered(es, n) == Answered(es, n - 1);
      }
    }
  }

  /** No turn holds more than one user message. */
  lemma {:induction false} OneInputPerTurn(key: Value -> string, es: seq<Event>, n: nat)
    requires n <= |es|
    ensures forall i :: 0 <= i < |TurnsUpTo(key, es, n)| ==> |TurnsUpTo(key, es, n)[i].inputs| <= 1
  {
    hide TurnAt;
    if n > 0 {
      OneInputPerTurn(key, es, n - 1);
      if RunStart(es, n - 1) {
        TurnInputs(key, es, n - 1);
      }
    }
  }

  lemma TurnInputs(key: Value -> string, es: seq<Event>, i: nat)
    requires i < |es| && RunStart(es, i)
    ensures TurnAt(key, es, i).inputs == InputsAt(es, i)
  {
  }

  lemma InputsOfNone()
    ensures InputsOf([]) == []
  {
  }

  lemma {:induction false} InputsOfSnoc(turns: seq<ReplayTurn>, t: ReplayTurn)
    ensures InputsOf(turns + [t]) == InputsOf(turns) + t.inputs
  {
    assert (turns + [t])[..|turns|] == turns;
  }

  // ----- De-duplication and re-delivery -----

  /** De-duplication keeps the first block of each key, in order, and so one block per key and every key. */
  lemma {:induction false} DedupMeaning(key: Value -> string, blocks: seq<Value>)
    ensures var d := Dedup(key, blocks);
            && Picks(blocks, Firsts(key, blocks), d)
            && Keys(key, d) == Keys(key, blocks)
            && (forall i :: 0 <= i < |d| ==> d[i] in blocks)
            && (forall i, j :: 0 <= i < j < |d| ==> key(d[i]) != key(d[j]))
  {
    hide Firsts;
    hide Dedup;
    DedupPicks(key, blocks);
    DedupKeys(key, blocks);
    FirstsDistinct(key, blocks, Dedup(key, blocks));
  }

  lemma {:induction false} DedupKeys(key: Value -> string, blocks: seq<Value>)
    ensures Keys(key, Dedup(key, blocks)) == Keys(key, blocks)
  {
    if blocks != [] {
      var front, last := blocks[..|blocks| - 1], blocks[|blocks| - 1];
      DedupKeys(key, front);
      assert blocks == front + [last];
      DedupSnoc(key, front, last);
      DedupSnoc(key, Dedup(key, front), last);
    }
  }

  lemma {:induction false} FirstsDistinct(key: Value -> string, blocks: seq<Value>, picked: seq<Value>)
    requires Picks(blocks, Firsts(key, blocks), picked)
    ensures forall i :: 0 <= i < |picked| ==> picked[i] in blocks
    ensures forall i, j :: 0 <= i < j < |picked| ==> key(picked[i]) != key(picked[j])
  {
    var at: seq<nat> :| Lists(at, Firsts(key, blocks)) && FoundAt(blocks, at, picked);
    forall i, j | 0 <= i < j < |picked|
      ensures key(picked[i]) != key(picked[j])
    {
      assert at[j] in at;
      assert at[i] < at[j];
    }
  }

  lemma {:induction false} DedupPicks(key: Value -> string, blocks: seq<Value>)
    ensures Picks(blocks, Firsts(key, blocks), Dedup(key, blocks))
  {
    hide Picks;
    hide Keys;
    if blocks == [] {
      PicksNone<Value>();
      assert Firsts(key, blocks) == {};
    } else {
      var front, last := blocks[..|blocks| - 1], blocks[|blocks| - 1];
      DedupPicks(key, front);
      FirstsSnoc(key, front, last);
      assert blocks == front + [last];
      PicksSnoc(front, Firsts(key, front), Dedup(key, front), last);
      assert Firsts(key, front) + {} == Firsts(key, front);
      assert Dedup(key, front) + [] == Dedup(key, front);
    }
  }

  lemma {:induction false} FirstsSnoc(key: Value -> string, front: seq<Value>, last: Value)
    ensures Firsts(key, front + [last])
            == Firsts(key, front) + if key(last) in Keys(key, front) then {} else {|front|}
  {
    var all := front + [last];
    forall i: nat | i < |front|
      ensures i in Firsts(key, all) <==> i in Firsts(key, front)
    {
      assert forall j :: 0 <= j <= i ==> all[j] == front[j];
    }
    assert forall j :: 0 <= j < |front| ==> all[j] == front[j];
    assert |front| in Firsts(key, all) <==> key(last) !in Keys(key, front);
  }

  /** The current group already holds everything event `e` brings. */
  ghost predicate Holds(key: Value -> string, s: State, e: Event)
    requires e.AssistantEvent?
  {
    && s.group.Some?
    && s.group.value.requestId == e.requestId
    && Keys(key, BlocksFromContent(e.content)) <= s.group.value.seen
    && s.group.value.usage.Max(e.usage) == s.group.value.usage
  }

  lemma {:induction false} AddBlocksSeen(key: Value -> string, blocks: seq<Value>, seen: set<string>, more: seq<Value>)
    ensures AddBlocks(key, blocks, seen, more).1 == seen + Keys(key, more)
    ensures Keys(key, more) <= seen ==> AddBlocks(key, blocks, seen, more) == (blocks, seen)
  {
    if more != [] {
      var front, last := more[..|more| - 1], more[|more| - 1];
      AddBlocksSeen(key, blocks, seen, front);
      assert more == front + [last];
      DedupSnoc(key, front, last);
    }
  }

  /** Delivering a held event again changes nothing. */
  lemma {:induction false} HeldIsNoOp(key: Value -> string, s: State, e: Event)
    requires e.AssistantEvent? && Holds(key, s, e)
    ensures Step(key, s, e) == s
  {
    AddBlocksSeen(key, s.group.value.blocks, s.group.value.seen, BlocksFromContent(e.content));
  }

  /** An event is held once delivered, and stays held while its run goes on. */
  lemma {:induction false} HoldsAfter(key: Value -> string, s: State, e: Event, next: Event)
    requires e.AssistantEvent?
    requires next == e ||
             (Holds(key, s, e) && !next.UserEvent? && (next.AssistantEvent? ==> next.requestId == e.requestId))
    ensures Holds(key, Step(key, s, next), e)
  {
    if next.AssistantEvent? {
      var g := if s.group.Some? && s.group.value.requestId == next.requestId then s.group.value else OpenGroup(next);
      AddBlocksSeen(key, g.blocks, g.seen, BlocksFromContent(next.content));
    }
  }

  lemma {:induction false} HoldsThroughRun(key: Value -> string, pre: seq<Event>, e: Event, mid: seq<Event>)
    requires e.AssistantEvent?
    requires forall i :: 0 <= i < |mid| ==>
               mid[i].OtherEvent? || (mid[i].AssistantEvent? && mid[i].requestId == e.requestId)
    ensures Holds(key, Run(key, pre + [e] + mid), e)
  {
    var all := pre + [e] + mid;
    if mid == [] {
      assert all[..|all| - 1] == pre;
      HoldsAfter(key, Run(key, pre), e, e);
    } else {
      var front := mid[..|mid| - 1];
      HoldsThroughRun(key, pre, e, front);
      assert all[..|all| - 1] == pre + [e] + front;
      HoldsAfter(key, Run(key, pre + [e] + front), e, mid[|mid| - 1]);
    }
  }

  lemma {:induction false} RunCongruent(key: Value -> string, a: seq<Event>, b: seq<Event>, post: seq<Event>)
    requires Run(key, a) == Run(key, b)
    ensures Run(key, a + post) == Run(key, b + post)
  {
    if post == [] {
      assert a + post == a && b + post == b;
    } else {
      var front := post[..|post| - 1];
      RunCongruent(key, a, b, front);
      assert (a + post)[..|a + post| - 1] == a + front && (b + post)[..|b + post| - 1] == b + front;
    }
  }

  /** Re-delivering an assistant event inside its own run leaves the replay unchanged. */
  lemma {:induction false} RedeliveryChangesNothing(key: Value -> string, pre: seq<Event>, e: Event, mid: seq<Event>,
                                                    post: seq<Event>)
    requires e.AssistantEvent?
    requires forall i :: 0 <= i < |mid| ==>
               mid[i].OtherEvent? || (mid[i].AssistantEvent? && mid[i].requestId == e.requestId)
    ensures Turns(key, pre + [e] + mid + [e] + post) == Turns(key, pre + [e] + mid + post)
  {
    var run := pre + [e] + mid;
    HoldsThroughRun(key, pre, e, mid);
    HeldIsNoOp(key, Run(key, run), e);
    assert (run + [e])[..|run|] == run;
    RunCongruent(key, run + [e], run, post);
    GroupingIsMaximalRuns(key, run + [e] + post);
    GroupingIsMaximalRuns(key, run + post);
  }
}
