/** Picking elements out of a list without changing their order. */
module Selection {
  /** The positions in `at` are those in `kept`, each once, in order. */
  ghost predicate Lists(at: seq<nat>, kept: set<nat>) {
    (forall i :: i in at <==> i in kept) && (forall k, l :: 0 <= k < l < |at| ==> at[k] < at[l])
  }

  lemma {:induction false} ListsSnoc(at: seq<nat>, kept: set<nat>, n: nat)
    requires Lists(at, kept) && forall i :: i in kept ==> i < n
    ensures Lists(at + [n], kept + {n})
  {
    assert forall k :: 0 <= k < |at| ==> at[k] in at;
  }

  lemma {:induction false} ListsCount(at: seq<nat>, kept: set<nat>)
    requires Lists(at, kept)
    ensures |at| == |kept|
  {
    if at == [] {
      assert kept == {};
    } else {
      var front, last := at[..|at| - 1], at[|at| - 1];
      assert at == front + [last] && last in at;
      forall i
        ensures i in front <==> i in kept - {last}
      {
        assert i in at <==> i in front || i == last;
      }
      ListsCount(front, kept - {last});
    }
  }

  ghost predicate FoundAt<T(!new)>(source: seq<T>, at: seq<nat>, result: seq<T>) {
    |at| == |result| && forall k :: 0 <= k < |at| ==> at[k] < |source| && result[k] == source[at[k]]
  }

  /** The result is the source at the kept positions, in the source's order. */
  ghost predicate Picks<T(!new)>(source: seq<T>, kept: set<nat>, result: seq<T>) {
    exists at: seq<nat> :: Lists(at, kept) && FoundAt(source, at, result)
  }

  /** What is picked is what the source has at a kept position. */
  lemma {:induction false} PicksHave<T(!new)>(source: seq<T>, kept: set<nat>, result: seq<T>, x: T)
    requires Picks(source, kept, result)
    ensures x in result <==> exists i :: i in kept && i < |source| && source[i] == x
  {
    var at: seq<nat> :| Lists(at, kept) && FoundAt(source, at, result);
    if x in result {
      var k :| 0 <= k < |result| && result[k] == x;
      assert at[k] in at;
    }
    if i :| i in kept && i < |source| && source[i] == x {
      var k :| 0 <= k < |at| && at[k] == i;
      assert result[k] == x;
    }
  }

  lemma {:induction false} PicksCount<T(!new)>(source: seq<T>, kept: set<nat>, result: seq<T>)
    requires Picks(source, kept, result)
    ensures |result| == |kept|
  {
    var at: seq<nat> :| Lists(at, kept) && FoundAt(source, at, result);
    ListsCount(at, kept);
  }

  lemma PicksNone<T(!new)>()
    ensures Picks<T>([], {}, [])
  {
    assert Lists([], {}) && FoundAt<T>([], [], []);
  }

  lemma {:induction false} PicksSnoc<T(!new)>(source: seq<T>, kept: set<nat>, result: seq<T>, x: T)
    requires Picks(source, kept, result)
    ensures Picks(source + [x], kept, result) && Picks(source + [x], kept + {|source|}, result + [x])
  {
    var at: seq<nat> :| Lists(at, kept) && FoundAt(source, at, result);
    assert FoundAt(source + [x], at, result);
    var more := at + [|source|];
    assert Lists(more, kept + {|source|}) && FoundAt(source + [x], more, result + [x]);
  }
}
