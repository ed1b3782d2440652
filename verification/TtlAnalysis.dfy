/** Cache-creation tokens by idle gap, and what two caching strategies would charge for them. */
module TtlAnalysis {
  import opened Json
  import opened Selection

  /**
    One counted message: its id (empty if it has none), time in seconds, whether
    that time came with a zone, token counts and model.
   */
  datatype Turn = Turn(
    id: string, time: real, zoned: bool, cacheCreation: int, cacheRead: int, input: int, model: string)

  /** A transcript line: passed over, counted, or one that raises (its JSON is not an object) and stops the file. */
  datatype Line = Skipped | Counted(turn: Turn) | Raises

  // ----- Reading one file -----

  datatype Reading = Reading(kept: seq<Turn>, seen: set<string>, raised: bool)

  /** What is left of the lines once ids already seen, here or in an earlier file, are dropped. */
  function Scan(lines: seq<Line>, seen: set<string>): Reading {
    if lines == [] then Reading([], seen, false)
    else
      var r := Scan(lines[..|lines| - 1], seen);
      var last := lines[|lines| - 1];
      if r.raised || last.Skipped? then r
      else if last.Raises? then r.(raised := true)
      else if last.turn.id == "" then r.(kept := r.kept + [last.turn])
      else if last.turn.id in r.seen then r
      else r.(kept := r.kept + [last.turn], seen := r.seen + {last.turn.id})
  }

  /** Times with and without a zone cannot be compared, so sorting them raises. */
  predicate Mixed(ts: seq<Turn>) {
    exists i, j :: 0 <= i < |ts| && 0 <= j < |ts| && ts[i].zoned != ts[j].zoned
  }

  /** Reading or sorting the file raised. */
  predicate Lost(r: Reading) { r.raised || Mixed(r.kept) }

  /** The file makes a session: nothing raised, and at least two turns are left. */
  predicate Counts(r: Reading) { !Lost(r) && |r.kept| >= 2 }

  /** Insert after everything at the same time or earlier. */
  function Insert(ts: seq<Turn>, t: Turn): seq<Turn> {
    if ts == [] || ts[|ts| - 1].time <= t.time then ts + [t]
    else Insert(ts[..|ts| - 1], t) + [ts[|ts| - 1]]
  }

  /** `out.sort(key=time)`. */
  function SortByTime(ts: seq<Turn>): seq<Turn> {
    if ts == [] then [] else Insert(SortByTime(ts[..|ts| - 1]), ts[|ts| - 1])
  }

  ghost predicate Sorted(ts: seq<Turn>) {
    forall i, j :: 0 <= i < j < |ts| ==> ts[i].time <= ts[j].time
  }

  function AtTime(ts: seq<Turn>, time: real): seq<Turn> {
    if ts == [] then []
    else AtTime(ts[..|ts| - 1], time) + if ts[|ts| - 1].time == time then [ts[|ts| - 1]] else []
  }

  lemma {:induction false} AtTimeSnoc(ts: seq<Turn>, t: Turn, time: real)
    ensures AtTime(ts + [t], time) == AtTime(ts, time) + if t.time == time then [t] else []
  {
    assert (ts + [t])[..|ts|] == ts;
  }

  lemma {:induction false} InsertBound(ts: seq<Turn>, t: Turn, bound: real)
    requires t.time <= bound && forall i :: 0 <= i < |ts| ==> ts[i].time <= bound
    ensures forall i :: 0 <= i < |Insert(ts, t)| ==> Insert(ts, t)[i].time <= bound
  {
    if !(ts == [] || ts[|ts| - 1].time <= t.time) {
      InsertBound(ts[..|ts| - 1], t, bound);
    }
  }

  lemma {:induction false} InsertSorted(ts: seq<Turn>, t: Turn)
    requires Sorted(ts)
    ensures Sorted(Insert(ts, t))
  {
    if !(ts == [] || ts[|ts| - 1].time <= t.time) {
      InsertSorted(ts[..|ts| - 1], t);
      InsertBound(ts[..|ts| - 1], t, ts[|ts| - 1].time);
    }
  }

  lemma {:induction false} InsertPermutes(ts: seq<Turn>, t: Turn)
    ensures multiset(Insert(ts, t)) == multiset(ts) + multiset{t}
  {
    if !(ts == [] || ts[|ts| - 1].time <= t.time) {
      InsertPermutes(ts[..|ts| - 1], t);
      assert ts == ts[..|ts| - 1] + [ts[|ts| - 1]];
    }
  }

  lemma {:induction false} InsertStable(ts: seq<Turn>, t: Turn, time: real)
    ensures AtTime(Insert(ts, t), time) == AtTime(ts, time) + if t.time == time then [t] else []
  {
    hide AtTime;
    if ts == [] || ts[|ts| - 1].time <= t.time {
      AtTimeSnoc(ts, t, time);
    } else {
      var front, last := ts[..|ts| - 1], ts[|ts| - 1];
      InsertStable(front, t, time);
      AtTimeSnoc(Insert(front, t), last, time);
      AtTimeSnoc(front, last, time);
      assert ts == front + [last];
    }
  }

  lemma {:induction false} SortSorts(ts: seq<Turn>)
    ensures Sorted(SortByTime(ts)) && |SortByTime(ts)| == |ts|
  {
    if ts != [] {
      SortSorts(ts[..|ts| - 1]);
      InsertSorted(SortByTime(ts[..|ts| - 1]), ts[|ts| - 1]);
      InsertLength(SortByTime(ts[..|ts| - 1]), ts[|ts| - 1]);
    }
  }

  lemma {:induction false} InsertLength(ts: seq<Turn>, t: Turn)
    ensures |Insert(ts, t)| == |ts| + 1
  {
    if !(ts == [] || ts[|ts| - 1].time <= t.time) {
      InsertLength(ts[..|ts| - 1], t);
    }
  }

  /** Sorting permutes. */
  lemma {:induction false} SortPermutes(ts: seq<Turn>)
    ensures multiset(SortByTime(ts)) == multiset(ts)
  {
    hide Insert;
    if ts != [] {
      var front, last := ts[..|ts| - 1], ts[|ts| - 1];
      SortPermutes(front);
      InsertPermutes(SortByTime(front), last);
      assert ts == front + [last];
    }
  }

  /** Sorting keeps the order of simultaneous turns. */
  lemma {:induction false} SortStable(ts: seq<Turn>, time: real)
    ensures AtTime(SortByTime(ts), time) == AtTime(ts, time)
  {
    hide Insert;
    if ts != [] {
      SortStable(ts[..|ts| - 1], time);
      InsertStable(SortByTime(ts[..|ts| - 1]), ts[|ts| - 1], time);
    }
  }

  /** `turns_of`: the kept turns in time order, and the ids seen so far; an exception loses the turns only. */
  method TurnsOf(lines: seq<Line>, seen: set<string>) returns (out: Option<seq<Turn>>, seenIds: set<string>)
    ensures var r := Scan(lines, seen);
            seenIds == r.seen && out == if Lost(r) then None else Some(SortByTime(r.kept))
  {
    var kept: seq<Turn> := [];
    seenIds := seen;
    for i := 0 to |lines|
      invariant Scan(lines[..i], seen) == Reading(kept, seenIds, false)
    {
      assert lines[..i + 1][..i] == lines[..i];
      match lines[i] {
        case Skipped =>
        case Raises =>
          ScanStops(lines, seen, i + 1);
          return None, seenIds;
        case Counted(turn) =>
          if turn.id == "" || turn.id !in seenIds {
            if turn.id != "" {
              seenIds := seenIds + {turn.id};
            }
            kept := kept + [turn];
          }
      }
    }
    assert lines[..|lines|] == lines;
    if Mixed(kept) {
      return None, seenIds;
    }
    out := Some(SortByTime(kept));
  }

  lemma {:induction false} ScanStops(lines: seq<Line>, seen: set<string>, k: nat)
    requires k <= |lines| && Scan(lines[..k], seen).raised
    ensures Scan(lines, seen) == Scan(lines[..k], seen)
    decreases |lines|
  {
    if k == |lines| {
      assert lines[..k] == lines;
    } else {
      var front := lines[..|lines| - 1];
      assert front[..k] == lines[..k];
      ScanStops(front, seen, k);
    }
  }

  // ----- Nothing lost -----

  /** Where the lines are that count and whose id, if any, neither an earlier file nor an earlier line has used. */
  ghost function NewAt(lines: seq<Line>, seen: set<string>): set<nat> {
    set i: nat | i < |lines| && lines[i].Counted? &&
      (lines[i].turn.id == "" || (lines[i].turn.id !in seen && !Mentions(lines[..i], lines[i].turn.id)))
  }

  /** The id is on a counted line before anything raises. */
  ghost predicate Mentions(lines: seq<Line>, id: string) {
    exists i :: 0 <= i < |lines| && lines[i].Counted? && lines[i].turn.id == id && NoneRaises(lines[..i])
  }

  ghost predicate NoneRaises(lines: seq<Line>) {
    forall i :: 0 <= i < |lines| ==> !lines[i].Raises?
  }

  ghost predicate HasId(ts: seq<Turn>, id: string) {
    exists k :: 0 <= k < |ts| && ts[k].id == id
  }

  lemma {:induction false} MentionsSnoc(front: seq<Line>, last: Line, id: string)
    ensures Mentions(front + [last], id) <==>
            Mentions(front, id) || (NoneRaises(front) && last.Counted? && last.turn.id == id)
  {
    var all := front + [last];
    assert all[..|front|] == front;
    forall i | 0 <= i < |front|
      ensures all[i] == front[i] && all[..i] == front[..i]
    {
    }
    if Mentions(front, id) {
      var i :| 0 <= i < |front| && front[i].Counted? && front[i].turn.id == id && NoneRaises(front[..i]);
      assert all[i].Counted? && NoneRaises(all[..i]);
    }
    if NoneRaises(front) && last.Counted? && last.turn.id == id {
      assert all[|front|].Counted? && NoneRaises(all[..|front|]);
    }
  }

  lemma {:induction false} RaisedIff(lines: seq<Line>, seen: set<string>)
    ensures Scan(lines, seen).raised <==> !NoneRaises(lines)
  {
    hide NoneRaises;
    NoneRaisesEmpty();
    if lines != [] {
      var front, last := lines[..|lines| - 1], lines[|lines| - 1];
      RaisedIff(front, seen);
      NoneRaisesSnoc(front, last);
      assert lines == front + [last];
    }
  }

  lemma {:induction false} NoneRaisesSnoc(front: seq<Line>, last: Line)
    ensures NoneRaises(front + [last]) <==> NoneRaises(front) && !last.Raises?
  {
    var all := front + [last];
    assert all[|front|] == last;
    assert forall i :: 0 <= i < |front| ==> all[i] == front[i];
  }

  /** Reading a file consumes exactly the ids it mentions, and keeps a turn for each that is new. */
  lemma {:induction false} ScanIds(lines: seq<Line>, seen: set<string>, id: string)
    requires id != ""
    ensures id in Scan(lines, seen).seen <==> id in seen || Mentions(lines, id)
    ensures HasId(Scan(lines, seen).kept, id) <==> id !in seen && Mentions(lines, id)
  {
    hide Mentions;
    if lines == [] {
      MentionsNone(id);
    } else {
      var front, last := lines[..|lines| - 1], lines[|lines| - 1];
      ScanIds(front, seen, id);
      RaisedIff(front, seen);
      assert lines == front + [last];
      MentionsSnoc(front, last, id);
      if last.Counted? {
        HasIdSnoc(Scan(front, seen).kept, last.turn, id);
      }
    }
  }

  lemma NoneRaisesEmpty()
    ensures NoneRaises([])
  {
  }

  lemma MentionsNone(id: string)
    ensures !Mentions([], id)
  {
  }

  lemma {:induction false} HasIdSnoc(ts: seq<Turn>, t: Turn, id: string)
    ensures HasId(ts + [t], id) <==> HasId(ts, id) || t.id == id
  {
    var all := ts + [t];
    assert all[|ts|] == t;
    if HasId(ts, id) {
      var k :| 0 <= k < |ts| && ts[k].id == id;
      assert all[k].id == id;
    }
  }

  function AsLines(ts: seq<Turn>): seq<Line> {
    seq(|ts|, k requires 0 <= k < |ts| => Counted(ts[k]))
  }

  /** A file read to its end keeps exactly its new lines, in order. */
  lemma {:induction false} ScanPicks(lines: seq<Line>, seen: set<string>)
    requires NoneRaises(lines)
    ensures Picks(lines, NewAt(lines, seen), AsLines(Scan(lines, seen).kept))
  {
    hide Picks;
    hide Mentions;
    hide NewAt;
    hide AsLines;
    if lines == [] {
      PicksNone<Line>();
      NothingNew(seen);
    } else {
      var front, last := lines[..|lines| - 1], lines[|lines| - 1];
      var r := Scan(front, seen);
      ScanPicks(front, seen);
      RaisedIff(front, seen);
      assert lines == front + [last];
      PicksSnoc(front, NewAt(front, seen), AsLines(r.kept), last);
      NewAtSnoc(front, last, seen);
      if last.Counted? {
        if last.turn.id != "" {
          ScanIds(front, seen, last.turn.id);
        }
        AsLinesSnoc(r.kept, last);
      }
    }
  }

  lemma NothingNew(seen: set<string>)
    ensures NewAt([], seen) == {} && AsLines([]) == []
  {
  }

  lemma AsLinesSnoc(ts: seq<Turn>, line: Line)
    requires line.Counted?
    ensures AsLines(ts + [line.turn]) == AsLines(ts) + [line]
  {
  }

  /** At least two new lines, none that raises, and no mixture of times with and without a zone. */
  ghost predicate MakesSession(lines: seq<Line>, seen: set<string>) {
    && NoneRaises(lines) && |NewAt(lines, seen)| >= 2
    && forall i, j :: i in NewAt(lines, seen) && j in NewAt(lines, seen) ==> lines[i].turn.zoned == lines[j].turn.zoned
  }

  /** The files that count are those. */
  lemma {:induction false} CountsIff(lines: seq<Line>, seen: set<string>)
    ensures Counts(Scan(lines, seen)) <==> MakesSession(lines, seen)
  {
    hide Scan;
    RaisedIff(lines, seen);
    if NoneRaises(lines) {
      ScanPicks(lines, seen);
      PickedLikewise(lines, NewAt(lines, seen), Scan(lines, seen).kept);
    }
  }

  lemma {:induction false} PickedLikewise(lines: seq<Line>, where: set<nat>, kept: seq<Turn>)
    requires Picks(lines, where, AsLines(kept)) && forall i :: i in where ==> i < |lines| && lines[i].Counted?
    ensures |kept| == |where|
    ensures Mixed(kept) <==> exists i, j :: i in where && j in where && lines[i].turn.zoned != lines[j].turn.zoned
  {
    hide Picks;
    PicksCount(lines, where, AsLines(kept));
    if a, b :| 0 <= a < |kept| && 0 <= b < |kept| && kept[a].zoned != kept[b].zoned {
      var i := PickedFrom(lines, where, kept, a);
      var j := PickedFrom(lines, where, kept, b);
    }
    if i, j :| i in where && j in where && lines[i].turn.zoned != lines[j].turn.zoned {
      var a := PickedTo(lines, where, kept, i);
      var b := PickedTo(lines, where, kept, j);
    }
  }

  lemma {:induction false} PickedFrom(lines: seq<Line>, where: set<nat>, kept: seq<Turn>, k: nat) returns (i: nat)
    requires Picks(lines, where, AsLines(kept)) && k < |kept|
    ensures i in where && i < |lines| && lines[i] == Counted(kept[k])
  {
    hide Picks;
    PicksHave(lines, where, AsLines(kept), Counted(kept[k]));
    assert AsLines(kept)[k] == Counted(kept[k]);
    i :| i in where && i < |lines| && lines[i] == Counted(kept[k]);
  }

  lemma {:induction false} PickedTo(lines: seq<Line>, where: set<nat>, kept: seq<Turn>, i: nat) returns (k: nat)
    requires Picks(lines, where, AsLines(kept)) && i in where && i < |lines| && lines[i].Counted?
    ensures k < |kept| && lines[i] == Counted(kept[k])
  {
    hide Picks;
    PicksHave(lines, where, AsLines(kept), lines[i]);
    k :| 0 <= k < |kept| && AsLines(kept)[k] == lines[i];
  }

  lemma {:induction false} NewAtSnoc(front: seq<Line>, last: Line, seen: set<string>)
    ensures var isNew := last.Counted? &&
                         (last.turn.id == "" || (last.turn.id !in seen && !Mentions(front, last.turn.id)));
            NewAt(front + [last], seen) == if isNew then NewAt(front, seen) + {|front|} else NewAt(front, seen)
  {
    hide Mentions;
    var all := front + [last];
    assert all[..|front|] == front;
    forall i: nat | i < |front|
      ensures i in NewAt(all, seen) <==> i in NewAt(front, seen)
    {
      assert all[i] == front[i] && all[..i] == front[..i];
    }
  }

  // ----- No id twice -----

  ghost predicate DistinctIds(ts: seq<Turn>) {
    forall i, j :: 0 <= i < j < |ts| && ts[i].id != "" ==> ts[i].id != ts[j].id
  }

  lemma {:induction false} ScanDistinct(lines: seq<Line>, seen: set<string>)
    ensures var r := Scan(lines, seen);
            && seen <= r.seen && DistinctIds(r.kept)
            && forall i :: 0 <= i < |r.kept| && r.kept[i].id != "" ==> r.kept[i].id in r.seen && r.kept[i].id !in seen
  {
    if lines != [] {
      ScanDistinct(lines[..|lines| - 1], seen);
    }
  }

  function SeenAfter(files: seq<seq<Line>>): set<string> {
    if files == [] then {} else Scan(files[|files| - 1], SeenAfter(files[..|files| - 1])).seen
  }

  function KeptAll(files: seq<seq<Line>>): seq<Turn> {
    if files == [] then []
    else
      var front := files[..|files| - 1];
      KeptAll(front) + Scan(files[|files| - 1], SeenAfter(front)).kept
  }

  /** Across all files, no non-empty message id is kept twice. */
  lemma {:induction false} NoIdTwice(files: seq<seq<Line>>)
    ensures DistinctIds(KeptAll(files))
    ensures forall i :: 0 <= i < |KeptAll(files)| && KeptAll(files)[i].id != "" ==>
              KeptAll(files)[i].id in SeenAfter(files)
  {
    if files != [] {
      var front := files[..|files| - 1];
      NoIdTwice(front);
      ScanDistinct(files[|files| - 1], SeenAfter(front));
    }
  }
}
