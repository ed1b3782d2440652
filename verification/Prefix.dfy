/** Common prefixes of two message lists, and the tokens they hold. */
module Prefix {
  import opened Json

  /** `count` is `count_message`; `count_messages` adds `overhead` once per list. */
  datatype Tokenizer = Tokenizer(count: Message -> nat, overhead: nat)

  function CountMessage(t: Tokenizer, m: Message): nat { t.count(m) }

  /** The tokens of a list, message by message, without the per-list overhead. */
  function Tokens(t: Tokenizer, ms: seq<Message>): nat {
    if ms == [] then 0 else Tokens(t, ms[..|ms| - 1]) + CountMessage(t, ms[|ms| - 1])
  }

  function CountMessages(t: Tokenizer, ms: seq<Message>): nat {
    Tokens(t, ms) + t.overhead
  }

  lemma TokensNone(t: Tokenizer)
    ensures Tokens(t, []) == 0
  {
  }

  lemma {:induction false} TokensSnoc(t: Tokenizer, ms: seq<Message>, i: nat)
    requires i < |ms|
    ensures Tokens(t, ms[..i + 1]) == Tokens(t, ms[..i]) + CountMessage(t, ms[i])
  {
    assert ms[..i + 1][..i] == ms[..i];
  }

  lemma {:induction false} TokensAppend(t: Tokenizer, a: seq<Message>, b: seq<Message>)
    ensures Tokens(t, a + b) == Tokens(t, a) + Tokens(t, b)
  {
    if b == [] {
      assert a + b == a;
    } else {
      assert (a + b)[..|a + b| - 1] == a + b[..|b| - 1];
      TokensAppend(t, a, b[..|b| - 1]);
    }
  }

  lemma {:induction false} TokensMonotone(t: Tokenizer, a: seq<Message>, b: seq<Message>)
    requires a <= b
    ensures Tokens(t, a) <= Tokens(t, b)
  {
    assert b == a + b[|a|..];
    TokensAppend(t, a, b[|a|..]);
  }

  /** The length of the longest common prefix. */
  function CommonLen(a: seq<Message>, b: seq<Message>): (l: nat)
    ensures l <= |a| && l <= |b| && a[..l] == b[..l]
    ensures l < |a| && l < |b| ==> a[l] != b[l]
  {
    if a != [] && b != [] && a[0] == b[0] then
      var l := CommonLen(a[1..], b[1..]);
      assert a[..l + 1] == [a[0]] + a[1..][..l] && b[..l + 1] == [b[0]] + b[1..][..l];
      l + 1
    else 0
  }

  /** The two facts that pin `CommonLen` down. */
  lemma {:induction false} CommonLenUnique(a: seq<Message>, b: seq<Message>, l: nat)
    requires l <= |a| && l <= |b| && a[..l] == b[..l]
    requires l < |a| && l < |b| ==> a[l] != b[l]
    ensures CommonLen(a, b) == l
  {
    var c := CommonLen(a, b);
    assert forall i :: 0 <= i < l ==> a[i] == a[..l][i] && b[i] == b[..l][i];
    assert forall i :: 0 <= i < c ==> a[i] == a[..c][i] && b[i] == b[..c][i];
  }

  /** All of `a` is common exactly when `a` is a prefix of `b`. */
  lemma {:induction false} CommonLenFull(a: seq<Message>, b: seq<Message>)
    ensures CommonLen(a, b) == |a| <==> a <= b
  {
    if a <= b {
      CommonLenUnique(a, b, |a|);
    }
  }

  /** What stopping at the first difference, `i`, says about the tokens counted so far. */
  lemma {:induction false} CommonTokens(prev: seq<Message>, curr: seq<Message>, t: Tokenizer, i: nat)
    requires i <= |prev| && i <= |curr| && prev[..i] == curr[..i]
    requires i < |prev| && i < |curr| ==> prev[i] != curr[i]
    ensures CommonLen(prev, curr) == i
    ensures Tokens(t, curr[..i]) <= Min(Tokens(t, prev), Tokens(t, curr))
    ensures prev <= curr ==> Tokens(t, curr[..i]) == Tokens(t, prev)
  {
    hide CommonLen;
    hide Tokens;
    CommonLenUnique(prev, curr, i);
    TokensMonotone(t, prev[..i], prev);
    TokensMonotone(t, curr[..i], curr);
    CommonLenFull(prev, curr);
    assert i == |prev| ==> prev[..i] == prev;
  }

  /** `_common_prefix_tokens`: add up messages until the first difference. */
  method CommonPrefixTokens(prev: seq<Message>, curr: seq<Message>, t: Tokenizer) returns (common: nat)
    ensures common == Tokens(t, curr[..CommonLen(prev, curr)])
    ensures common == Tokens(t, prev[..CommonLen(prev, curr)])
    ensures common <= Min(Tokens(t, prev), Tokens(t, curr))
    ensures prev <= curr ==> common == Tokens(t, prev)
  {
    hide CommonLen;
    hide Tokens;
    TokensNone(t);
    common := 0;
    var i := 0;
    while i < |prev| && i < |curr|
      invariant 0 <= i <= |prev| && i <= |curr|
      invariant prev[..i] == curr[..i]
      invariant common == Tokens(t, curr[..i])
    {
      if prev[i] != curr[i] {
        break;
      }
      assert prev[..i + 1] == prev[..i] + [prev[i]] && curr[..i + 1] == curr[..i] + [curr[i]];
      TokensSnoc(t, curr, i);
      common := common + CountMessage(t, curr[i]);
      i := i + 1;
    }
    CommonTokens(prev, curr, t, i);
  }

  /** `_first_diff_index`: the first place where two lists differ, lengths included. */
  method FirstDiffIndex(prev: seq<Message>, curr: seq<Message>) returns (index: Option<nat>)
    ensures index == DiffIndex(prev, curr)
  {
    var i := 0;
    while i < |prev| && i < |curr|
      invariant 0 <= i <= |prev| && i <= |curr|
      invariant prev[..i] == curr[..i]
    {
      if prev[i] != curr[i] {
        CommonLenUnique(prev, curr, i);
        return Some(i);
      }
      assert prev[..i + 1] == prev[..i] + [prev[i]] && curr[..i + 1] == curr[..i] + [curr[i]];
      i := i + 1;
    }
    CommonLenUnique(prev, curr, i);
    if |prev| != |curr| {
      return Some(Min(|prev|, |curr|));
    }
    assert prev[..i] == prev && curr[..i] == curr;
    return None;
  }

  function DiffIndex(prev: seq<Message>, curr: seq<Message>): Option<nat> {
    if prev == curr then None else Some(CommonLen(prev, curr))
  }

  /**
    What the index says: none exactly for equal lists; inside the previous list
    exactly when the previous list is not a prefix of the current one.
   */
  lemma {:induction false} DiffIndexMeaning(prev: seq<Message>, curr: seq<Message>)
    ensures DiffIndex(prev, curr).None? <==> prev == curr
    ensures !(prev <= curr) <==> DiffIndex(prev, curr).Some? && DiffIndex(prev, curr).value < |prev|
    ensures DiffIndex(prev, curr).Some? ==>
              var i := DiffIndex(prev, curr).value;
              i <= |prev| && i <= |curr| && prev[..i] == curr[..i] &&
              (i == |prev| || i == |curr| || prev[i] != curr[i])
  {
    CommonLenFull(prev, curr);
  }
}
