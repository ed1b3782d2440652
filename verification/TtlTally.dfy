/** Tallying cache-creation tokens per bucket and model, and pricing the tally. */
module TtlTally {
  import opened Json
  import opened TtlAnalysis

  // ----- Dictionaries of counts, as their items in insertion order -----

  type Counter = seq<(string, int)>

  /** `counter[model] += tokens` on a defaultdict. */
  function Add(c: Counter, model: string, tokens: int): Counter {
    if c == [] then [(model, tokens)]
    else if c[0].0 == model then [(model, c[0].1 + tokens)] + c[1..]
    else [c[0]] + Add(c[1..], model, tokens)
  }

  /** Any price or indicator per model. */
  type Weight = string -> real

  /** Tokens of one model, weighted. */
  function Weigh(tokens: int, model: string, w: Weight): real { tokens as real * w(model) }

  lemma WeighAdds(a: int, b: int, model: string, w: Weight)
    ensures Weigh(a + b, model, w) == Weigh(a, model, w) + Weigh(b, model, w)
    ensures Weigh(0, model, w) == 0.0
  {
  }

  function Weighted(c: Counter, w: Weight): real {
    if c == [] then 0.0 else Weigh(c[0].1, c[0].0, w) + Weighted(c[1..], w)
  }

  lemma {:induction false} AddWeighted(c: Counter, model: string, tokens: int, w: Weight)
    ensures Weighted(Add(c, model, tokens), w) == Weighted(c, w) + Weigh(tokens, model, w)
  {
    hide Weigh;
    if c == [] {
    } else if c[0].0 == model {
      WeighAdds(c[0].1, tokens, model, w);
      assert Add(c, model, tokens)[1..] == c[1..];
    } else {
      AddWeighted(c[1..], model, tokens, w);
      assert Add(c, model, tokens)[1..] == Add(c[1..], model, tokens);
    }
  }

  // ----- Buckets and categories -----

  datatype Bucket = Under5 | From5To15 | From15To30 | From30To60 | From1To4h | Over4h

  const BUCKET_ORDER := [Under5, From5To15, From15To30, From30To60, From1To4h, Over4h]

  /** `bucket`, on a gap in minutes. */
  function BucketOf(gap: real): Bucket {
    if gap < 5.0 then Under5
    else if gap < 15.0 then From5To15
    else if gap < 30.0 then From15To30
    else if gap < 60.0 then From30To60
    else if gap < 240.0 then From1To4h
    else Over4h
  }

  /** Each bucket holds the gaps from its lower bound up to, but not including, the next one's, in minutes. */
  lemma BucketBounds(gap: real, b: Bucket)
    ensures BucketOf(gap) == b <==>
            match b
            case Under5 => gap < 5.0
            case From5To15 => 5.0 <= gap < 15.0
            case From15To30 => 15.0 <= gap < 30.0
            case From30To60 => 30.0 <= gap < 60.0
            case From1To4h => 60.0 <= gap < 240.0
            case Over4h => 240.0 <= gap
  {
  }

  function IndexOf(b: Bucket): (i: nat)
    ensures i < |BUCKET_ORDER| && BUCKET_ORDER[i] == b
  {
    match b
    case Under5 => 0
    case From5To15 => 1
    case From15To30 => 2
    case From30To60 => 3
    case From1To4h => 4
    case Over4h => 5
  }

  /** The three columns of the cost table. */
  datatype Category = InWindow | Idle5To60 | Over60

  function CategoryOf(b: Bucket): Category {
    match b
    case Under5 => InWindow
    case From5To15 => Idle5To60
    case From15To30 => Idle5To60
    case From30To60 => Idle5To60
    case _ => Over60
  }

  /** Where turn `i` of a session belongs; the first turn has no predecessor and counts as over 60 minutes. */
  function CategoryAt(ts: seq<Turn>, i: nat): Category
    requires i < |ts|
  {
    if i == 0 then Over60
    else
      var gap := (ts[i].time - ts[i - 1].time) / 60.0;
      if gap < 5.0 then InWindow else if gap < 60.0 then Idle5To60 else Over60
  }

  // ----- What the columns should hold -----

  /** The tokens a session contributes to a column, weighted per model. */
  function SessionSum(ts: seq<Turn>, n: nat, c: Category, w: Weight): real
    requires n <= |ts|
  {
    if n == 0 then 0.0
    else SessionSum(ts, n - 1, c, w)
         + if CategoryAt(ts, n - 1) == c then Weigh(ts[n - 1].cacheCreation, ts[n - 1].model, w) else 0.0
  }

  /** The turns of each file that counts. */
  function Sessions(files: seq<seq<Line>>): seq<seq<Turn>> {
    if files == [] then []
    else
      var front := files[..|files| - 1];
      var r := Scan(files[|files| - 1], SeenAfter(front));
      Sessions(front) + if Counts(r) then [SortByTime(r.kept)] else []
  }

  function ColumnSum(sessions: seq<seq<Turn>>, c: Category, w: Weight): real {
    if sessions == [] then 0.0
    else
      var last := sessions[|sessions| - 1];
      ColumnSum(sessions[..|sessions| - 1], c, w) + SessionSum(last, |last|, c, w)
  }

  // ----- The tally of `main` -----

  datatype Tally = Tally(sessions: nat, first: Counter, buckets: seq<Counter>)

  predicate WellFormed(t: Tally) { |t.buckets| == |BUCKET_ORDER| }

  function BucketSum(buckets: seq<Counter>, k: nat, c: Category, w: Weight): real
    requires k <= |buckets| <= |BUCKET_ORDER|
  {
    if k == 0 then 0.0
    else BucketSum(buckets, k - 1, c, w)
         + if CategoryOf(BUCKET_ORDER[k - 1]) == c then Weighted(buckets[k - 1], w) else 0.0
  }

  function TallySum(t: Tally, c: Category, w: Weight): real
    requires WellFormed(t)
  {
    BucketSum(t.buckets, |t.buckets|, c, w) + if c == Over60 then Weighted(t.first, w) else 0.0
  }

  // ----- Bucket by bucket -----

  /** Where a turn is tallied: with the first turns, or in the bucket of its gap. */
  datatype Slot = First | Gap(bucket: Bucket)

  /** The gap before turn `i` in minutes. */
  function GapAt(ts: seq<Turn>, i: nat): real
    requires 0 < i < |ts|
  {
    (ts[i].time - ts[i - 1].time) / 60.0
  }

  function SlotAt(ts: seq<Turn>, i: nat): Slot
    requires i < |ts|
  {
    if i == 0 then First else Gap(BucketOf(GapAt(ts, i)))
  }

  function Held(t: Tally, s: Slot, w: Weight): real
    requires WellFormed(t)
  {
    match s
    case First => Weighted(t.first, w)
    case Gap(b) => Weighted(t.buckets[IndexOf(b)], w)
  }

  /** The tokens a session contributes to a slot, weighted per model. */
  function SlotSum(ts: seq<Turn>, n: nat, s: Slot, w: Weight): real
    requires n <= |ts|
  {
    if n == 0 then 0.0
    else SlotSum(ts, n - 1, s, w)
         + if SlotAt(ts, n - 1) == s then Weigh(ts[n - 1].cacheCreation, ts[n - 1].model, w) else 0.0
  }

  function SlotColumn(sessions: seq<seq<Turn>>, s: Slot, w: Weight): real {
    if sessions == [] then 0.0
    else
      var last := sessions[|sessions| - 1];
      SlotColumn(sessions[..|sessions| - 1], s, w) + SlotSum(last, |last|, s, w)
  }

  lemma {:induction false} SlotColumnSnoc(sessions: seq<seq<Turn>>, last: seq<Turn>, s: Slot, w: Weight)
    ensures SlotColumn(sessions + [last], s, w) == SlotColumn(sessions, s, w) + SlotSum(last, |last|, s, w)
  {
    assert (sessions + [last])[..|sessions|] == sessions;
  }

  lemma {:induction false} HeldUpdate(t: Tally, b: Bucket, model: string, tokens: int, s: Slot, w: Weight)
    requires WellFormed(t)
    ensures var k := IndexOf(b);
            Held(t.(buckets := t.buckets[k := Add(t.buckets[k], model, tokens)]), s, w)
            == Held(t, s, w) + if s == Gap(b) then Weigh(tokens, model, w) else 0.0
  {
    hide Weigh;
    hide Weighted;
    hide Add;
    AddWeighted(t.buckets[IndexOf(b)], model, tokens, w);
    if s.Gap? && s.bucket != b {
      assert BUCKET_ORDER[IndexOf(s.bucket)] == s.bucket && BUCKET_ORDER[IndexOf(b)] == b;
    }
  }

  /** The columns of the cost table, slot by slot. */
  lemma {:induction false} ColumnIsSlots(t: Tally, c: Category, w: Weight)
    requires WellFormed(t)
    ensures TallySum(t, c, w)
            == match c
               case InWindow => Held(t, Gap(Under5), w)
               case Idle5To60 => Held(t, Gap(From5To15), w) + Held(t, Gap(From15To30), w) + Held(t, Gap(From30To60), w)
               case Over60 => Held(t, Gap(From1To4h), w) + Held(t, Gap(Over4h), w) + Held(t, First, w)
  {
    hide Weighted;
    var bs := t.buckets;
    assert BucketSum(bs, 1, c, w) == if c == InWindow then Weighted(bs[0], w) else 0.0;
    assert BucketSum(bs, 2, c, w) == BucketSum(bs, 1, c, w) + if c == Idle5To60 then Weighted(bs[1], w) else 0.0;
    assert BucketSum(bs, 3, c, w) == BucketSum(bs, 2, c, w) + if c == Idle5To60 then Weighted(bs[2], w) else 0.0;
    assert BucketSum(bs, 4, c, w) == BucketSum(bs, 3, c, w) + if c == Idle5To60 then Weighted(bs[3], w) else 0.0;
    assert BucketSum(bs, 5, c, w) == BucketSum(bs, 4, c, w) + if c == Over60 then Weighted(bs[4], w) else 0.0;
    assert BucketSum(bs, 6, c, w) == BucketSum(bs, 5, c, w) + if c == Over60 then Weighted(bs[5], w) else 0.0;
  }

  /** So is a session's share of them. */
  lemma {:induction false} SessionIsSlots(ts: seq<Turn>, n: nat, c: Category, w: Weight)
    requires n <= |ts|
    ensures SessionSum(ts, n, c, w)
            == match c
               case InWindow => SlotSum(ts, n, Gap(Under5), w)
               case Idle5To60 =>
                 SlotSum(ts, n, Gap(From5To15), w) + SlotSum(ts, n, Gap(From15To30), w)
                 + SlotSum(ts, n, Gap(From30To60), w)
               case Over60 =>
                 SlotSum(ts, n, Gap(From1To4h), w) + SlotSum(ts, n, Gap(Over4h), w) + SlotSum(ts, n, First, w)
  {
    hide Weigh;
    if n > 0 {
      SessionIsSlots(ts, n - 1, c, w);
    }
  }

  /** One session's contribution, turn by turn; the negative-gap skip is there and never taken. */
  method TallySession(tally: Tally, ts: seq<Turn>) returns (r: Tally)
    requires WellFormed(tally) && |ts| >= 2 && Sorted(ts)
    ensures WellFormed(r) && r.sessions == tally.sessions + 1
    ensures forall s, w: Weight :: Held(r, s, w) == Held(tally, s, w) + SlotSum(ts, |ts|, s, w)
    ensures forall c, w: Weight :: TallySum(r, c, w) == TallySum(tally, c, w) + SessionSum(ts, |ts|, c, w)
  {
    hide Weigh;
    hide Weighted;
    hide TallySum;
    hide SessionSum;
    hide BucketOf;
    r := tally.(sessions := tally.sessions + 1, first := Add(tally.first, ts[0].model, ts[0].cacheCreation));
    forall s: Slot, w: Weight
      ensures Held(r, s, w) == Held(tally, s, w) + SlotSum(ts, 1, s, w)
    {
      AddWeighted(tally.first, ts[0].model, ts[0].cacheCreation, w);
    }
    for i := 1 to |ts|
      invariant WellFormed(r) && r.sessions == tally.sessions + 1
      invariant forall s, w: Weight :: Held(r, s, w) == Held(tally, s, w) + SlotSum(ts, i, s, w)
    {
      var gap := (ts[i].time - ts[i - 1].time) / 60.0;
      if gap < 0.0 {
        continue;
      }
      var k := IndexOf(BucketOf(gap));
      ghost var before := r;
      r := r.(buckets := r.buckets[k := Add(r.buckets[k], ts[i].model, ts[i].cacheCreation)]);
      forall s: Slot, w: Weight
        ensures Held(r, s, w) == Held(tally, s, w) + SlotSum(ts, i + 1, s, w)
      {
        HeldUpdate(before, BucketOf(gap), ts[i].model, ts[i].cacheCreation, s, w);
      }
    }
    forall c: Category, w: Weight
      ensures TallySum(r, c, w) == TallySum(tally, c, w) + SessionSum(ts, |ts|, c, w)
    {
      ColumnIsSlots(tally, c, w);
      ColumnIsSlots(r, c, w);
      SessionIsSlots(ts, |ts|, c, w);
    }
  }

  const EMPTY_TALLY := Tally(0, [], [[], [], [], [], [], []])

  /** The file loop of `main`: every column holds exactly the turns that belong in it, whatever the weights. */
  method TallyFiles(files: seq<seq<Line>>) returns (tally: Tally)
    ensures WellFormed(tally) && tally.sessions == |Sessions(files)|
    ensures forall s, w: Weight :: Held(tally, s, w) == SlotColumn(Sessions(files), s, w)
    ensures forall c, w: Weight :: TallySum(tally, c, w) == ColumnSum(Sessions(files), c, w)
  {
    tally := EMPTY_TALLY;
    forall c: Category, w: Weight
      ensures TallySum(tally, c, w) == 0.0
    {
      EmptyTallySum(c, w);
    }
    forall s: Slot, w: Weight
      ensures Held(tally, s, w) == 0.0
    {
      assert s.Gap? ==> EMPTY_TALLY.buckets[IndexOf(s.bucket)] == [];
    }
    hide TallySum;
    hide Held;
    hide SessionSum;
    hide SlotSum;
    hide Scan;
    var seen: set<string> := {};
    for i := 0 to |files|
      invariant seen == SeenAfter(files[..i])
      invariant WellFormed(tally) && tally.sessions == |Sessions(files[..i])|
      invariant forall s, w: Weight :: Held(tally, s, w) == SlotColumn(Sessions(files[..i]), s, w)
      invariant forall c, w: Weight :: TallySum(tally, c, w) == ColumnSum(Sessions(files[..i]), c, w)
    {
      assert files[..i + 1][..i] == files[..i];
      ghost var r := Scan(files[i], seen);
      var t;
      t, seen := TurnsOf(files[i], seen);
      SortSorts(r.kept);
      if t.Some? && |t.value| >= 2 {
        ghost var before := tally;
        tally := TallySession(tally, t.value);
        assert Sessions(files[..i + 1]) == Sessions(files[..i]) + [t.value];
        forall c: Category, w: Weight
          ensures TallySum(tally, c, w) == ColumnSum(Sessions(files[..i + 1]), c, w)
        {
          assert TallySum(before, c, w) == ColumnSum(Sessions(files[..i]), c, w);
          ColumnSumSnoc(Sessions(files[..i]), t.value, c, w);
        }
        forall s: Slot, w: Weight
          ensures Held(tally, s, w) == SlotColumn(Sessions(files[..i + 1]), s, w)
        {
          assert Held(before, s, w) == SlotColumn(Sessions(files[..i]), s, w);
          SlotColumnSnoc(Sessions(files[..i]), t.value, s, w);
        }
      } else {
        assert Sessions(files[..i + 1]) == Sessions(files[..i]);
      }
    }
    assert files[..|files|] == files;
  }

  lemma {:induction false} EmptyTallySum(c: Category, w: Weight)
    ensures TallySum(EMPTY_TALLY, c, w) == 0.0
  {
    EmptyBucketSum(6, c, w);
  }

  lemma {:induction false} EmptyBucketSum(k: nat, c: Category, w: Weight)
    requires k <= 6
    ensures BucketSum(EMPTY_TALLY.buckets, k, c, w) == 0.0
  {
    if k > 0 {
      EmptyBucketSum(k - 1, c, w);
      assert EMPTY_TALLY.buckets[k - 1] == [];
    }
  }

  lemma {:induction false} ColumnSumSnoc(sessions: seq<seq<Turn>>, last: seq<Turn>, c: Category, w: Weight)
    ensures ColumnSum(sessions + [last], c, w) == ColumnSum(sessions, c, w) + SessionSum(last, |last|, c, w)
  {
    assert (sessions + [last])[..|sessions|] == sessions;
  }

  // ----- Per-model columns -----

  /** One model's row; the source's unused `first` column is always zero. */
  datatype Agg = Agg(inWindow: int, idle: int, over: int)

  function Part(a: Agg, c: Category): int {
    match c
    case InWindow => a.inWindow
    case Idle5To60 => a.idle
    case Over60 => a.over
  }

  function Bump(a: Agg, c: Category, tokens: int): Agg {
    match c
    case InWindow => a.(inWindow := a.inWindow + tokens)
    case Idle5To60 => a.(idle := a.idle + tokens)
    case Over60 => a.(over := a.over + tokens)
  }

  type ByModel = seq<(string, Agg)>

  function AddTo(rows: ByModel, model: string, c: Category, tokens: int): ByModel {
    if rows == [] then [(model, Bump(Agg(0, 0, 0), c, tokens))]
    else if rows[0].0 == model then [(model, Bump(rows[0].1, c, tokens))] + rows[1..]
    else [rows[0]] + AddTo(rows[1..], model, c, tokens)
  }

  function ModelSum(rows: ByModel, c: Category, w: Weight): real {
    if rows == [] then 0.0 else Weigh(Part(rows[0].1, c), rows[0].0, w) + ModelSum(rows[1..], c, w)
  }

  lemma {:induction false} AddToSum(rows: ByModel, model: string, to: Category, tokens: int, c: Category, w: Weight)
    ensures ModelSum(AddTo(rows, model, to, tokens), c, w)
            == ModelSum(rows, c, w) + if c == to then Weigh(tokens, model, w) else 0.0
  {
    hide Weigh;
    WeighAdds(0, 0, model, w);
    if rows == [] {
      assert AddTo(rows, model, to, tokens)[1..] == [];
    } else if rows[0].0 == model {
      WeighAdds(Part(rows[0].1, c), tokens, model, w);
      assert AddTo(rows, model, to, tokens)[1..] == rows[1..];
    } else {
      AddToSum(rows[1..], model, to, tokens, c, w);
      assert AddTo(rows, model, to, tokens)[1..] == AddTo(rows[1..], model, to, tokens);
    }
  }

  /** No model has two rows. */
  ghost predicate OneRowEach(rows: ByModel) {
    forall i, j :: 0 <= i < j < |rows| ==> rows[i].0 != rows[j].0
  }

  ghost predicate HasRow(rows: ByModel, model: string) {
    exists i :: 0 <= i < |rows| && rows[i].0 == model
  }

  lemma {:induction false} AddToRows(rows: ByModel, model: string, c: Category, tokens: int, other: string)
    ensures HasRow(AddTo(rows, model, c, tokens), other) <==> HasRow(rows, other) || other == model
  {
    var r := AddTo(rows, model, c, tokens);
    assert r[0].0 == if rows == [] then model else rows[0].0;
    if rows != [] {
      HasRowCons(rows, other);
      HasRowCons(r, other);
      if rows[0].0 == model {
        assert r[1..] == rows[1..];
      } else {
        AddToRows(rows[1..], model, c, tokens, other);
        assert r[1..] == AddTo(rows[1..], model, c, tokens);
      }
    }
  }

  lemma {:induction false} HasRowCons(rows: ByModel, other: string)
    requires rows != []
    ensures HasRow(rows, other) <==> rows[0].0 == other || HasRow(rows[1..], other)
  {
    if HasRow(rows[1..], other) {
      var i :| 0 <= i < |rows| - 1 && rows[1..][i].0 == other;
      assert rows[i + 1].0 == other;
    }
    if HasRow(rows, other) {
      var i :| 0 <= i < |rows| && rows[i].0 == other;
      assert i > 0 ==> rows[1..][i - 1].0 == other;
    }
  }

  lemma {:induction false} AddToDistinct(rows: ByModel, model: string, c: Category, tokens: int)
    requires OneRowEach(rows)
    ensures OneRowEach(AddTo(rows, model, c, tokens))
  {
    if rows != [] && rows[0].0 != model {
      var rest := AddTo(rows[1..], model, c, tokens);
      AddToDistinct(rows[1..], model, c, tokens);
      AddToRows(rows[1..], model, c, tokens, rows[0].0);
      var r := AddTo(rows, model, c, tokens);
      assert r == [rows[0]] + rest;
      assert !HasRow(rows[1..], rows[0].0);
      assert forall j :: 0 <= j < |rest| ==> rest[j].0 != rows[0].0;
    }
  }

  /** Add one dictionary's items to a column. */
  method AddItems(rows: ByModel, items: Counter, to: Category) returns (r: ByModel)
    requires OneRowEach(rows)
    ensures OneRowEach(r)
    ensures forall c, w: Weight ::
              ModelSum(r, c, w) == ModelSum(rows, c, w) + if c == to then Weighted(items, w) else 0.0
  {
    hide Weigh;
    hide ModelSum;
    hide OneRowEach;
    r := rows;
    assert items[0..] == items;
    for j := 0 to |items|
      invariant OneRowEach(r)
      invariant forall c, w: Weight ::
        ModelSum(r, c, w) + (if c == to then Weighted(items[j..], w) else 0.0)
        == ModelSum(rows, c, w) + if c == to then Weighted(items, w) else 0.0
    {
      ghost var before := r;
      r := AddTo(r, items[j].0, to, items[j].1);
      AddToDistinct(before, items[j].0, to, items[j].1);
      assert items[j..][0] == items[j] && items[j..][1..] == items[j + 1..];
      forall c: Category, w: Weight
        ensures ModelSum(r, c, w) + (if c == to then Weighted(items[j + 1..], w) else 0.0)
                == ModelSum(rows, c, w) + if c == to then Weighted(items, w) else 0.0
      {
        AddToSum(before, items[j].0, to, items[j].1, c, w);
        assert Weighted(items[j..], w) == Weigh(items[j].1, items[j].0, w) + Weighted(items[j + 1..], w);
      }
    }
  }

  /** The per-model aggregation of `main`: buckets first, then the first turns. */
  method AggregateByModel(tally: Tally) returns (rows: ByModel)
    requires WellFormed(tally)
    ensures OneRowEach(rows)
    ensures forall c, w: Weight :: ModelSum(rows, c, w) == TallySum(tally, c, w)
  {
    hide Weighted;
    rows := [];
    for k := 0 to |BUCKET_ORDER|
      invariant OneRowEach(rows)
      invariant forall c, w: Weight :: ModelSum(rows, c, w) == BucketSum(tally.buckets, k, c, w)
    {
      ghost var before := rows;
      rows := AddItems(rows, tally.buckets[k], CategoryOf(BUCKET_ORDER[k]));
      forall c: Category, w: Weight
        ensures ModelSum(rows, c, w) == BucketSum(tally.buckets, k + 1, c, w)
      {
        assert ModelSum(before, c, w) == BucketSum(tally.buckets, k, c, w);
      }
    }
    rows := AddItems(rows, tally.first, Over60);
  }

  // ----- Conservation -----

  /** All of a list's tokens, weighted per model. */
  function TurnsSum(ts: seq<Turn>, w: Weight): real {
    if ts == [] then 0.0
    else TurnsSum(ts[..|ts| - 1], w) + Weigh(ts[|ts| - 1].cacheCreation, ts[|ts| - 1].model, w)
  }

  /** The kept tokens of the files that count, before any sorting or bucketing. */
  function CountedSum(files: seq<seq<Line>>, w: Weight): real {
    if files == [] then 0.0
    else
      var front := files[..|files| - 1];
      var r := Scan(files[|files| - 1], SeenAfter(front));
      CountedSum(front, w) + if Counts(r) then TurnsSum(r.kept, w) else 0.0
  }

  lemma {:induction false} TurnsSumSnoc(ts: seq<Turn>, t: Turn, w: Weight)
    ensures TurnsSum(ts + [t], w) == TurnsSum(ts, w) + Weigh(t.cacheCreation, t.model, w)
  {
    assert (ts + [t])[..|ts|] == ts;
  }

  lemma {:induction false} InsertSum(ts: seq<Turn>, t: Turn, w: Weight)
    ensures TurnsSum(Insert(ts, t), w) == TurnsSum(ts, w) + Weigh(t.cacheCreation, t.model, w)
  {
    hide Weigh;
    if ts == [] || ts[|ts| - 1].time <= t.time {
      TurnsSumSnoc(ts, t, w);
    } else {
      InsertSum(ts[..|ts| - 1], t, w);
      TurnsSumSnoc(Insert(ts[..|ts| - 1], t), ts[|ts| - 1], w);
    }
  }

  lemma {:induction false} SortSum(ts: seq<Turn>, w: Weight)
    ensures TurnsSum(SortByTime(ts), w) == TurnsSum(ts, w)
  {
    hide Weigh;
    if ts != [] {
      SortSum(ts[..|ts| - 1], w);
      InsertSum(SortByTime(ts[..|ts| - 1]), ts[|ts| - 1], w);
    }
  }

  /** Every turn of a session is in exactly one column. */
  lemma {:induction false} SessionColumns(ts: seq<Turn>, n: nat, w: Weight)
    requires n <= |ts|
    ensures SessionSum(ts, n, InWindow, w) + SessionSum(ts, n, Idle5To60, w) + SessionSum(ts, n, Over60, w)
            == TurnsSum(ts[..n], w)
  {
    hide Weigh;
    if n > 0 {
      SessionColumns(ts, n - 1, w);
      assert ts[..n][..n - 1] == ts[..n - 1];
    }
  }

  /** The three columns together hold every kept token of every file that counts, once. */
  lemma {:induction false} ColumnsConserve(files: seq<seq<Line>>, w: Weight)
    ensures var s := Sessions(files);
            ColumnSum(s, InWindow, w) + ColumnSum(s, Idle5To60, w) + ColumnSum(s, Over60, w) == CountedSum(files, w)
  {
    hide SessionSum;
    hide TurnsSum;
    hide Scan;
    if files != [] {
      var front := files[..|files| - 1];
      ColumnsConserve(front, w);
      var r := Scan(files[|files| - 1], SeenAfter(front));
      if Counts(r) {
        var ts := SortByTime(r.kept);
        SortSum(r.kept, w);
        SessionColumns(ts, |ts|, w);
        assert ts[..|ts|] == ts;
        ColumnSumSnoc(Sessions(front), ts, InWindow, w);
        ColumnSumSnoc(Sessions(front), ts, Idle5To60, w);
        ColumnSumSnoc(Sessions(front), ts, Over60, w);
      } else {
        assert Sessions(files) == Sessions(front);
      }
    }
  }

  // ----- Which ids are counted -----

  /** Some session has a turn with this id. */
  ghost predicate InSessions(sessions: seq<seq<Turn>>, id: string) {
    exists s :: 0 <= s < |sessions| && HasId(sessions[s], id)
  }

  lemma {:induction false} InSessionsSnoc(sessions: seq<seq<Turn>>, last: seq<Turn>, id: string)
    ensures InSessions(sessions + [last], id) <==> InSessions(sessions, id) || HasId(last, id)
  {
    hide HasId;
    var all := sessions + [last];
    assert all[|sessions|] == last;
    if InSessions(sessions, id) {
      var s :| 0 <= s < |sessions| && HasId(sessions[s], id);
      assert HasId(all[s], id);
    }
  }

  lemma {:induction false} SortKeepsIds(ts: seq<Turn>, id: string)
    ensures HasId(SortByTime(ts), id) <==> HasId(ts, id)
  {
    hide SortByTime;
    SortPermutes(ts);
    var sorted := SortByTime(ts);
    if HasId(ts, id) {
      var k :| 0 <= k < |ts| && ts[k].id == id;
      assert ts[k] in multiset(ts);
      assert ts[k] in sorted;
    }
    if HasId(sorted, id) {
      var k :| 0 <= k < |sorted| && sorted[k].id == id;
      assert sorted[k] in multiset(sorted);
      assert sorted[k] in ts;
    }
  }

  /** Earlier files have consumed exactly the ids they mention. */
  lemma {:induction false} SeenIffMentioned(files: seq<seq<Line>>, id: string)
    requires id != ""
    ensures id in SeenAfter(files) <==> exists f :: 0 <= f < |files| && Mentions(files[f], id)
  {
    hide Mentions;
    hide Scan;
    if files != [] {
      var front, last := files[..|files| - 1], files[|files| - 1];
      SeenIffMentioned(front, id);
      ScanIds(last, SeenAfter(front), id);
      assert forall f :: 0 <= f < |front| ==> files[f] == front[f];
    }
  }

  /** File `f` is the first to mention the id. */
  ghost predicate FirstToMention(files: seq<seq<Line>>, f: nat, id: string) {
    f < |files| && Mentions(files[f], id) && forall g :: 0 <= g < f ==> !Mentions(files[g], id)
  }

  /** File `f` makes a session. */
  ghost predicate FileCounts(files: seq<seq<Line>>, f: nat) {
    f < |files| && MakesSession(files[f], SeenAfter(files[..f]))
  }

  lemma {:induction false} EarlierFilesAlike(files: seq<seq<Line>>, last: seq<Line>, f: nat, id: string)
    requires f < |files|
    ensures FirstToMention(files + [last], f, id) <==> FirstToMention(files, f, id)
    ensures FileCounts(files + [last], f) <==> FileCounts(files, f)
  {
    hide Mentions;
    hide MakesSession;
    hide SeenAfter;
    var all := files + [last];
    assert all[f] == files[f] && all[..f] == files[..f];
    assert forall g :: 0 <= g < f ==> all[g] == files[g];
  }

  ghost predicate CountedBy(files: seq<seq<Line>>, f: nat, id: string) {
    f < |files| && FirstToMention(files, f, id) && FileCounts(files, f)
  }

  /** An id is counted exactly when the first file to mention it makes a session; no later file makes up for one. */
  lemma {:induction false} IdCountedIff(files: seq<seq<Line>>, id: string)
    requires id != ""
    ensures InSessions(Sessions(files), id) <==> exists f :: CountedBy(files, f, id)
  {
    hide Mentions;
    hide HasId;
    hide Scan;
    hide FirstToMention;
    hide FileCounts;
    if files == [] {
      NothingCounted(id);
    } else {
      var front, last := files[..|files| - 1], files[|files| - 1];
      IdCountedIff(front, id);
      assert files == front + [last];
      forall f: nat | f < |front|
        ensures CountedBy(files, f, id) <==> CountedBy(front, f, id)
      {
        EarlierFilesAlike(front, last, f, id);
      }
      LastFileCounts(files, id);
    }
  }

  lemma NothingCounted(id: string)
    ensures !InSessions(Sessions([]), id) && forall f :: !CountedBy([], f, id)
  {
  }

  lemma {:induction false} LastFileCounts(files: seq<seq<Line>>, id: string)
    requires files != [] && id != ""
    ensures var n := |files| - 1;
            InSessions(Sessions(files), id) <==> InSessions(Sessions(files[..n]), id) || CountedBy(files, n, id)
  {
    hide Mentions;
    hide HasId;
    hide Scan;
    hide Counts;
    hide MakesSession;
    var n := |files| - 1;
    var front := files[..n];
    var r := Scan(files[n], SeenAfter(front));
    ScanIds(files[n], SeenAfter(front), id);
    SeenIffMentioned(front, id);
    CountsIff(files[n], SeenAfter(front));
    assert forall f :: 0 <= f < n ==> files[f] == front[f];
    if Counts(r) {
      SortKeepsIds(r.kept, id);
      InSessionsSnoc(Sessions(front), SortByTime(r.kept), id);
      assert Sessions(files) == Sessions(front) + [SortByTime(r.kept)];
    } else {
      assert Sessions(files) == Sessions(front);
    }
    assert FileCounts(files, n) <==> Counts(r);
    assert FirstToMention(files, n, id) <==> HasId(r.kept, id);
  }
}
