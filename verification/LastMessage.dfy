/** Growing the last message in place: taking out what was appended, and putting it back after compression. */
module LastMessage {
  import opened Json

  /** `_extract_cache_stable_last_message_suffix`: stable front, last forwarded message, what was appended. */
  function ExtractSuffix(current: seq<Message>, previousOriginal: Option<seq<Message>>,
                         previousForwarded: Option<seq<Message>>): Option<(seq<Message>, Message, seq<Message>)>
  {
    if previousOriginal.None? || previousOriginal.value == [] || previousForwarded.None? then None
    else
      var orig, fwd := previousOriginal.value, previousForwarded.value;
      if |current| != |orig| || |fwd| != |orig| then None
      else
        var n := |current| - 1;
        if current[..n] != orig[..n] then None
        else if Get(current[n], "role") != Get(orig[n], "role") then None
        else if Get(current[n], "role") != Get(fwd[n], "role") then None
        else
          match (Get(current[n], "content"), Get(orig[n], "content"), Get(fwd[n], "content"))
          case (Str(c), Str(o), Str(_)) =>
            if o <= c then
              Some((fwd[..n], fwd[n], if c[|o|..] == "" then [] else [current[n]["content" := Str(c[|o|..])]]))
            else None
          case (Arr(c), Arr(o), Arr(_)) =>
            if o <= c then
              Some((fwd[..n], fwd[n], if c[|o|..] == [] then [] else [current[n]["content" := Arr(c[|o|..])]]))
            else None
          case _ => None
  }

  /** `_merge_appended_message_delta`. */
  function MergeDelta(previous: Message, delta: Option<Message>): Option<Message> {
    if delta.None? then Some(previous)
    else if Get(previous, "role") != Get(delta.value, "role") then None
    else
      match (Get(previous, "content"), Get(delta.value, "content"))
      case (Str(p), Str(d)) => Some(previous["content" := Str(p + d)])
      case (Arr(p), Arr(d)) => Some(previous["content" := Arr(p + d)])
      case _ => None
  }

  /** Content `b` is content `a` with more at the end. */
  predicate Extends(a: Value, b: Value) {
    (a.Str? && b.Str? && a.s <= b.s) || (a.Arr? && b.Arr? && a.items <= b.items)
  }

  predicate SameKind(a: Value, b: Value) {
    (a.Str? && b.Str?) || (a.Arr? && b.Arr?)
  }

  predicate Blank(content: Value) {
    content == Str("") || content == Arr([])
  }

  /** Content `a` followed by content `b` of the same kind. */
  function Append(a: Value, b: Value): Value
    requires SameKind(a, b)
  {
    if a.Str? then Str(a.s + b.s) else Arr(a.items + b.items)
  }

  /** What has to follow content `a` to make content `b`. */
  function Growth(a: Value, b: Value): (more: Value)
    requires Extends(a, b)
    ensures SameKind(a, more) && Append(a, more) == b
  {
    if a.Str? then Str(b.s[|a.s|..]) else Arr(b.items[|a.items|..])
  }

  /** What was extracted: the forwarded list, its last message apart, and the current one cut to what it gained. */
  ghost predicate Extracted(found: (seq<Message>, Message, seq<Message>), current: Message, previous: Message,
                            fwd: seq<Message>)
  {
    var (front, last, delta) := found;
    && front + [last] == fwd
    && Extends(Get(previous, "content"), Get(current, "content"))
    && var more := Growth(Get(previous, "content"), Get(current, "content"));
       delta == if Blank(more) then [] else [current["content" := more]]
  }

  /** Extraction succeeds exactly when only the last message grew, and it can be grown in the forwarded list too. */
  lemma {:induction false} ExtractsExactlyGrowth(current: seq<Message>, orig: seq<Message>, fwd: seq<Message>)
    ensures ExtractSuffix(current, Some(orig), Some(fwd)).Some? <==>
            && orig != [] && |current| == |orig| == |fwd|
            && (forall i :: 0 <= i < |orig| - 1 ==> current[i] == orig[i])
            && var n := |orig| - 1;
               && Get(current[n], "role") == Get(orig[n], "role") == Get(fwd[n], "role")
               && Extends(Get(orig[n], "content"), Get(current[n], "content"))
               && SameKind(Get(orig[n], "content"), Get(fwd[n], "content"))
    ensures var found := ExtractSuffix(current, Some(orig), Some(fwd));
            found.Some? ==> Extracted(found.value, current[|orig| - 1], orig[|orig| - 1], fwd)
  {
    hide Extracted;
    if orig != [] && |current| == |orig| {
      var n := |orig| - 1;
      assert current[..n] == orig[..n] <==> forall i :: 0 <= i < n ==> current[i] == orig[i];
      if ExtractSuffix(current, Some(orig), Some(fwd)).Some? {
        ExtractsTheGrowth(current, orig, fwd);
      }
    }
  }

  /** Before there is anything to compare with, nothing is extracted. */
  lemma ExtractsNothingAtFirst(current: seq<Message>, orig: Option<seq<Message>>, fwd: Option<seq<Message>>)
    ensures orig.None? || fwd.None? ==> ExtractSuffix(current, orig, fwd).None?
  {
  }

  lemma {:induction false} ExtractsTheGrowth(current: seq<Message>, orig: seq<Message>, fwd: seq<Message>)
    requires ExtractSuffix(current, Some(orig), Some(fwd)).Some?
    ensures Extracted(ExtractSuffix(current, Some(orig), Some(fwd)).value, current[|orig| - 1], orig[|orig| - 1], fwd)
  {
    var n := |orig| - 1;
    assert fwd == fwd[..n] + [fwd[n]];
  }

  function First(delta: seq<Message>): Option<Message> {
    if delta == [] then None else Some(delta[0])
  }

  /** The two messages agree on every key but the content. */
  predicate SameOtherwise(a: Message, b: Message) {
    a["content" := Null] == b["content" := Null]
  }

  /**
    With nothing compressed so far and the delta passed through, putting the
    delta back reproduces the current roles and contents; it reproduces the
    whole list exactly when the last message changed in its content only.
   */
  lemma {:induction false} ExtractThenMerge(current: seq<Message>, previous: seq<Message>)
    requires ExtractSuffix(current, Some(previous), Some(previous)).Some?
    ensures var (front, last, delta) := ExtractSuffix(current, Some(previous), Some(previous)).value;
            var merged := MergeDelta(last, First(delta));
            && merged.Some?
            && var result := front + [merged.value];
               && |result| == |current|
               && (forall i :: 0 <= i < |current| ==>
                     Get(result[i], "role") == Get(current[i], "role") &&
                     Get(result[i], "content") == Get(current[i], "content"))
               && (result == current <==> SameOtherwise(previous[|previous| - 1], current[|current| - 1]))
  {
    var n := |current| - 1;
    var (front, last, delta) := ExtractSuffix(current, Some(previous), Some(previous)).value;
    var merged := MergeDelta(last, First(delta)).value;
    var c := Get(current[n], "content");
    assert "content" in current[n] && current[n]["content"] == c;
    assert merged == last["content" := c] by {
      PutBack(last, current[n], delta);
    }
    RestoreIff(last, current[n], merged);
    assert front == current[..n];
    assert front + [merged] == current <==> merged == current[n] by {
      assert current == current[..n] + [current[n]];
      assert (front + [merged])[n] == merged;
    }
  }

  /** The content comes back whole. */
  lemma {:induction false} PutBack(last: Message, cur: Message, delta: seq<Message>)
    requires Extends(Get(last, "content"), Get(cur, "content")) && Get(last, "role") == Get(cur, "role")
    requires var p, c := Get(last, "content"), Get(cur, "content");
             var rest := if c.Str? then Str(c.s[|p.s|..]) else Arr(c.items[|p.items|..]);
             delta == if rest == Str("") || rest == Arr([]) then [] else [cur["content" := rest]]
    ensures MergeDelta(last, First(delta)) == Some(last["content" := Get(cur, "content")])
  {
    var p, c := Get(last, "content"), Get(cur, "content");
    if c.Str? {
      assert c.s == p.s + c.s[|p.s|..];
      assert delta == [] ==> c.s == p.s;
    } else {
      assert c.items == p.items + c.items[|p.items|..];
      assert delta == [] ==> c.items == p.items;
    }
    if delta == [] {
      assert p == c && last["content"] == p;
      assert last == last["content" := c];
    }
  }

  lemma {:induction false} RestoreIff(last: Message, cur: Message, merged: Message)
    requires "content" in cur && merged == last["content" := cur["content"]]
    ensures merged == cur <==> SameOtherwise(last, cur)
  {
    var a, b := last["content" := Null], cur["content" := Null];
    assert a["content" := cur["content"]] == merged && b["content" := cur["content"]] == cur;
    assert merged["content" := Null] == a;
  }

  /** Whatever the pipeline made of the delta, a merge that succeeds appends its content, and changes nothing else. */
  lemma {:induction false} MergeOnlyAppends(previous: Message, delta: Message)
    ensures var merged := MergeDelta(previous, Some(delta));
            && (merged.Some? <==> Get(previous, "role") == Get(delta, "role") &&
                                  SameKind(Get(previous, "content"), Get(delta, "content")))
            && (merged.Some? ==> SameOtherwise(previous, merged.value) &&
                                 Extends(Get(previous, "content"), Get(merged.value, "content")) &&
                                 Get(merged.value, "content")
                                 == Append(Get(previous, "content"), Get(delta, "content")))
  {
    var merged := MergeDelta(previous, Some(delta));
    if merged.Some? {
      assert merged.value["content" := Null] == previous["content" := Null];
    }
  }
}
