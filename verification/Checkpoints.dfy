/** Merging sessions into one summary per mode, some of them read back from checkpoint files. */
module Checkpoints {
  import opened Json
  import opened Prefix
  import opened Accounting
  import opened Replay
  import opened ReplayLaws

  // ----- The checkpoint format -----

  /** The keys of a serialized summary; each stands for the JSON key of the same name. */
  datatype Key =
    | ModeKey | SessionsKey | RequestsKey
    | RawKey | ForwardedKey | ReadKey | WriteKey | RegularKey | OutputKey
    | PaidInputKey | ReadCostKey | WriteCostKey | PaidOutputKey | TotalCostKey
    | EligibleKey | BustKey | ExpiryKey
    | RewriteKey | StableKey | BustingKey | NonEligibleKey | RetroactiveKey | LatestOnlyKey

  type Payload = map<Key, Value>

  /** What `asdict` puts under each key. */
  function FieldOf(mode: string, t: Totals, k: Key): Value {
    match k
    case ModeKey => Str(mode)
    case SessionsKey => Int(t.sessions)
    case RequestsKey => Int(t.requests)
    case RawKey => Int(t.tokens.raw)
    case ForwardedKey => Int(t.tokens.forwarded)
    case ReadKey => Int(t.tokens.read)
    case WriteKey => Int(t.tokens.write)
    case RegularKey => Int(t.tokens.regular)
    case OutputKey => Int(t.tokens.output)
    case PaidInputKey => Float(t.costs.paidInput)
    case ReadCostKey => Float(t.costs.cacheRead)
    case WriteCostKey => Float(t.costs.cacheWrite)
    case PaidOutputKey => Float(t.costs.paidOutput)
    case TotalCostKey => Float(t.costs.total)
    case EligibleKey => Int(t.cache.eligible)
    case BustKey => Int(t.cache.busts)
    case ExpiryKey => Int(t.cache.expired)
    case RewriteKey => Int(t.rewrites.all)
    case StableKey => Int(t.rewrites.stable)
    case BustingKey => Int(t.rewrites.busting)
    case NonEligibleKey => Int(t.rewrites.nonEligible)
    case RetroactiveKey => Int(t.rewrites.retroactive)
    case LatestOnlyKey => Int(t.rewrites.latestOnly)
  }

  /** `_write_checkpoint`'s payload; the per-turn list is always emptied and left out here. */
  function Encode(mode: string, t: Totals): Payload {
    map k: Key :: FieldOf(mode, t, k)
  }

  function IntAt(p: Payload, k: Key): int { if k in p && p[k].Int? then p[k].i else 0 }

  /** JSON does not keep a whole number apart from a float. */
  function FloatAt(p: Payload, k: Key): real {
    if k !in p then 0.0 else if p[k].Float? then p[k].x else if p[k].Int? then p[k].i as real else 0.0
  }

  predicate IsCost(k: Key) {
    k.PaidInputKey? || k.ReadCostKey? || k.WriteCostKey? || k.PaidOutputKey? || k.TotalCostKey?
  }

  /** The mode is there, and every number that is there is one; anything else raises. */
  predicate Readable(p: Payload) {
    && ModeKey in p && p[ModeKey].Str?
    && forall k :: k in p && k != ModeKey ==> p[k].Int? || (p[k].Float? && IsCost(k))
  }

  /** `_mode_summary_from_dict`: missing numbers read as zero. */
  function Decode(p: Payload): Totals {
    Totals(IntAt(p, SessionsKey), IntAt(p, RequestsKey), DecodeTokens(p), DecodeCosts(p),
           CacheTurns(IntAt(p, EligibleKey), IntAt(p, BustKey), IntAt(p, ExpiryKey)), DecodeRewrites(p))
  }

  function DecodeTokens(p: Payload): TokenCounts {
    TokenCounts(IntAt(p, RawKey), IntAt(p, ForwardedKey), IntAt(p, ReadKey), IntAt(p, WriteKey),
                IntAt(p, RegularKey), IntAt(p, OutputKey))
  }

  function DecodeCosts(p: Payload): Costs {
    Costs(FloatAt(p, PaidInputKey), FloatAt(p, ReadCostKey), FloatAt(p, WriteCostKey),
          FloatAt(p, PaidOutputKey), FloatAt(p, TotalCostKey))
  }

  function DecodeRewrites(p: Payload): RewriteTurns {
    RewriteTurns(IntAt(p, RewriteKey), IntAt(p, StableKey), IntAt(p, BustingKey), IntAt(p, NonEligibleKey),
                 IntAt(p, RetroactiveKey), IntAt(p, LatestOnlyKey))
  }

  lemma EncodeLookup(mode: string, t: Totals)
    ensures forall k :: FieldOf(mode, t, k).Int? ==> IntAt(Encode(mode, t), k) == FieldOf(mode, t, k).i
    ensures forall k :: FieldOf(mode, t, k).Float? ==> FloatAt(Encode(mode, t), k) == FieldOf(mode, t, k).x
  {
  }

  lemma {:induction false} TokensRoundTrip(mode: string, t: Totals)
    ensures DecodeTokens(Encode(mode, t)) == t.tokens
  {
    hide Encode;
    hide IntAt;
    hide FloatAt;
    EncodeLookup(mode, t);
  }

  lemma {:induction false} CostsRoundTrip(mode: string, t: Totals)
    ensures DecodeCosts(Encode(mode, t)) == t.costs
  {
    hide Encode;
    hide IntAt;
    hide FloatAt;
    EncodeLookup(mode, t);
  }

  lemma {:induction false} RewritesRoundTrip(mode: string, t: Totals)
    ensures DecodeRewrites(Encode(mode, t)) == t.rewrites
  {
    hide Encode;
    hide IntAt;
    hide FloatAt;
    EncodeLookup(mode, t);
  }

  /** A summary survives its checkpoint. */
  lemma {:induction false} CheckpointRoundTrip(mode: string, t: Totals)
    ensures Decode(Encode(mode, t)) == t
  {
    hide Encode;
    hide IntAt;
    hide DecodeTokens;
    hide DecodeCosts;
    hide DecodeRewrites;
    EncodeLookup(mode, t);
    TokensRoundTrip(mode, t);
    CostsRoundTrip(mode, t);
    RewritesRoundTrip(mode, t);
  }

  /** Each number of a summary is stored under its own key. */
  lemma TokensUnderOwnKeys(mode: string, t: Totals)
    ensures && FieldOf(mode, t, ModeKey) == Str(mode) && FieldOf(mode, t, SessionsKey) == Int(t.sessions)
            && FieldOf(mode, t, RequestsKey) == Int(t.requests) && FieldOf(mode, t, RawKey) == Int(t.tokens.raw)
            && FieldOf(mode, t, ForwardedKey) == Int(t.tokens.forwarded)
            && FieldOf(mode, t, ReadKey) == Int(t.tokens.read)
            && FieldOf(mode, t, WriteKey) == Int(t.tokens.write)
            && FieldOf(mode, t, RegularKey) == Int(t.tokens.regular)
            && FieldOf(mode, t, OutputKey) == Int(t.tokens.output)
  {
  }

  lemma CostsUnderOwnKeys(mode: string, t: Totals)
    ensures && FieldOf(mode, t, PaidInputKey) == Float(t.costs.paidInput)
            && FieldOf(mode, t, ReadCostKey) == Float(t.costs.cacheRead)
            && FieldOf(mode, t, WriteCostKey) == Float(t.costs.cacheWrite)
            && FieldOf(mode, t, PaidOutputKey) == Float(t.costs.paidOutput)
            && FieldOf(mode, t, TotalCostKey) == Float(t.costs.total)
  {
  }

  lemma TurnsUnderOwnKeys(mode: string, t: Totals)
    ensures && FieldOf(mode, t, EligibleKey) == Int(t.cache.eligible)
            && FieldOf(mode, t, BustKey) == Int(t.cache.busts)
            && FieldOf(mode, t, ExpiryKey) == Int(t.cache.expired)
  {
  }

  lemma RewritesUnderOwnKeys(mode: string, t: Totals)
    ensures && FieldOf(mode, t, RewriteKey) == Int(t.rewrites.all)
            && FieldOf(mode, t, StableKey) == Int(t.rewrites.stable)
            && FieldOf(mode, t, BustingKey) == Int(t.rewrites.busting)
            && FieldOf(mode, t, NonEligibleKey) == Int(t.rewrites.nonEligible)
            && FieldOf(mode, t, RetroactiveKey) == Int(t.rewrites.retroactive)
            && FieldOf(mode, t, LatestOnlyKey) == Int(t.rewrites.latestOnly)
  {
  }

  /** The value may stand where `asdict` would have put the other: they are equal, or a whole number for a cost. */
  predicate StandsFor(v: Value, w: Value) {
    v == w || (v.Int? && w.Float? && v.i as real == w.x)
  }

  /** Whatever the payload has, the summary has too. */
  ghost predicate Partial(p: Payload, mode: string, t: Totals) {
    forall k :: k in p ==> StandsFor(p[k], FieldOf(mode, t, k))
  }

  /** A payload can be read exactly when it is part of some summary's, and then reading it finds such a one. */
  lemma {:induction false} ReadableIff(p: Payload)
    ensures Readable(p) <==> ModeKey in p && exists mode, t :: Partial(p, mode, t)
    ensures Readable(p) ==> Partial(p, p[ModeKey].s, Decode(p))
  {
    if Readable(p) {
      DecodedStands(p);
    }
    if mode, t :| ModeKey in p && Partial(p, mode, t) {
      forall k | k in p
        ensures StandsFor(p[k], FieldOf(mode, t, k))
      {
      }
      assert p[ModeKey] == Str(mode);
    }
  }

  lemma {:induction false} DecodedStands(p: Payload)
    requires Readable(p)
    ensures Partial(p, p[ModeKey].s, Decode(p))
  {
    hide Decode;
    hide FieldOf;
    forall k | k in p
      ensures StandsFor(p[k], FieldOf(p[ModeKey].s, Decode(p), k))
    {
      DecodedField(p[ModeKey].s, p, k);
    }
  }

  lemma DecodedField(mode: string, p: Payload, k: Key)
    ensures FieldOf(mode, Decode(p), k)
            == if k == ModeKey then Str(mode) else if IsCost(k) then Float(FloatAt(p, k)) else Int(IntAt(p, k))
  {
    hide IntAt;
    hide FloatAt;
  }

  /** Numbers that are missing are zero. */
  lemma MissingReadsZero(p: Payload)
    requires forall k :: k in p ==> k == ModeKey
    ensures Decode(p) == ZERO
  {
  }

  lemma EncodeReadable(mode: string, t: Totals)
    ensures Readable(Encode(mode, t)) && Encode(mode, t)[ModeKey] == Str(mode)
  {
  }

  /** A file that is not JSON, or its object; JSON of another kind acts like an object without keys. */
  datatype File = Corrupt | Stored(payload: Payload)

  type Files = map<(string, string), File>

  /** The checkpoint directory: one file per mode and session id. */
  class CheckpointStore {
    var files: Files

    constructor ()
      ensures files == map[]
    {
      files := map[];
    }

    /** `_load_checkpoint_by_session_id`: a missing or corrupt file is no checkpoint, an unreadable payload raises. */
    method Load(mode: string, id: string) returns (summary: ModeSummary?, raised: bool)
      ensures raised <==> HasCheckpoint(files, mode, id) && !Readable(files[(mode, id)].payload)
      ensures summary != null <==> HasCheckpoint(files, mode, id) && !raised
      ensures summary != null ==>
                var payload := files[(mode, id)].payload;
                fresh(summary) && Str(summary.mode) == payload[ModeKey] && summary.Value() == Decode(payload)
    {
      if (mode, id) !in files || files[(mode, id)].Corrupt? {
        return null, false;
      }
      var payload := files[(mode, id)].payload;
      if !Readable(payload) {
        return null, true;
      }
      raised := false;
      summary := new ModeSummary.FromTotals(payload[ModeKey].s, Decode(payload));
    }

    /** `_write_checkpoint_by_session_id`. */
    method Write(mode: string, id: string, summary: ModeSummary)
      modifies this
      ensures files == old(files)[(mode, id) := Stored(Encode(summary.mode, summary.Value()))]
    {
      files := files[(mode, id) := Stored(Encode(summary.mode, summary.Value()))];
    }
  }

  predicate HasCheckpoint(files: Files, mode: string, id: string) {
    (mode, id) in files && files[(mode, id)].Stored?
  }

  // ----- What the aggregate should be -----

  /** A session file: its id, and the replay it parses to unless loading it fails. */
  datatype SessionFile = SessionFile(id: string, replay: Option<seq<ReplayTurn>>)

  /** How a batch is run; none of it may show in the result but the mode and the trimming. */
  datatype Batch = Batch(cfg: Settings, mode: Mode, recent: Option<int>, sessions: seq<SessionFile>)
  {
    /** Session `i` simulated from scratch; an unreadable file counts for nothing. */
    function Fresh(i: nat): Totals
      requires i < |sessions|
    {
      if sessions[i].replay.None? then ZERO
      else SessionTotals(cfg, Requests(cfg, mode, TrimToRecent(sessions[i].replay.value, recent)))
    }

    function FreshParts(): (parts: seq<Totals>)
      ensures |parts| == |sessions| && forall i :: 0 <= i < |parts| ==> parts[i] == Fresh(i)
    {
      seq(|sessions|, i requires 0 <= i < |sessions| => Fresh(i))
    }

    /** Checkpoints of these sessions, where present, hold what simulating them would give. */
    ghost predicate Consistent(files: Files) {
      forall i :: 0 <= i < |sessions| && HasCheckpoint(files, mode.Name(), sessions[i].id) ==>
        var payload := files[(mode.Name(), sessions[i].id)].payload; Readable(payload) && Decode(payload) == Fresh(i)
    }

    /** Sessions that share a checkpoint file agree; distinct ids are the usual case. */
    ghost predicate IdsDetermineTotals() {
      forall i, j :: 0 <= i < |sessions| && 0 <= j < |sessions| && sessions[i].id == sessions[j].id
                     ==> Fresh(i) == Fresh(j)
    }
  }

  /** A session that loads counts once, with as many requests as turns are left after trimming. */
  lemma {:induction false} FreshRequests(b: Batch, i: nat)
    requires i < |b.sessions|
    ensures match b.sessions[i].replay
            case None => b.Fresh(i) == ZERO
            case Some(turns) =>
              && b.Fresh(i).sessions == 1
              && b.Fresh(i).requests
                 == if b.recent.Some? && b.recent.value > 0 then Min(|turns|, b.recent.value) else |turns|
  {
    hide TokensUpTo;
    hide CostsUpTo;
    hide CacheUpTo;
    hide RewritesUpTo;
  }

  /** Distinct session ids are enough. */
  lemma {:induction false} DistinctIdsSuffice(b: Batch)
    requires forall i, j :: 0 <= i < j < |b.sessions| ==> b.sessions[i].id != b.sessions[j].id
    ensures b.IdsDetermineTotals()
  {
    hide Batch.Fresh;
  }

  /** The parts whose index is in `chosen`, added up. */
  ghost function SumOf(parts: seq<Totals>, n: nat, chosen: set<nat>): Totals
    requires n <= |parts|
  {
    if n == 0 then ZERO
    else SumOf(parts, n - 1, chosen).Plus(if n - 1 in chosen then parts[n - 1] else ZERO)
  }

  lemma {:induction false} SumOfNone(parts: seq<Totals>, n: nat)
    requires n <= |parts|
    ensures SumOf(parts, n, {}) == ZERO
  {
    if n > 0 {
      SumOfNone(parts, n - 1);
    }
  }

  /** It does not matter when a part comes in. */
  lemma {:induction false} SumOfAdd(parts: seq<Totals>, n: nat, chosen: set<nat>, j: nat)
    requires n <= |parts| && j < |parts| && j !in chosen
    ensures SumOf(parts, n, chosen + {j})
            == if j < n then SumOf(parts, n, chosen).Plus(parts[j]) else SumOf(parts, n, chosen)
  {
    hide Totals.Plus;
    if n > 0 {
      SumOfAdd(parts, n - 1, chosen, j);
      var before, p := SumOf(parts, n - 1, chosen), parts[j];
      var x := if n - 1 in chosen then parts[n - 1] else ZERO;
      PlusLaws(before, p, x);
      PlusLaws(before, x, p);
      PlusLaws(p, x, ZERO);
    }
  }

  lemma {:induction false} SumOfAll(parts: seq<Totals>, n: nat, chosen: set<nat>)
    requires n <= |parts| && forall i :: 0 <= i < n ==> i in chosen
    ensures SumOf(parts, n, chosen) == MergeAll(parts[..n])
  {
    if n > 0 {
      SumOfAll(parts, n - 1, chosen);
      assert parts[..n][..n - 1] == parts[..n - 1];
    }
  }

  /** The checkpoint directory after session `i` has stored its own result. */
  function AfterWrite(b: Batch, files: Files, i: nat): Files
    requires i < |b.sessions|
  {
    files[(b.mode.Name(), b.sessions[i].id) := Stored(Encode(b.mode.Name(), b.Fresh(i)))]
  }

  /** Storing a result keeps the directory consistent exactly when no other session shares its id with other totals. */
  lemma {:induction false} WriteKeepsConsistentIff(b: Batch, files: Files, i: nat)
    requires i < |b.sessions| && b.Consistent(files)
    ensures b.Consistent(AfterWrite(b, files, i)) <==>
            forall j :: 0 <= j < |b.sessions| && b.sessions[j].id == b.sessions[i].id ==> b.Fresh(j) == b.Fresh(i)
  {
    hide Batch.Fresh;
    hide Encode;
    hide Decode;
    hide Readable;
    CheckpointRoundTrip(b.mode.Name(), b.Fresh(i));
    EncodeReadable(b.mode.Name(), b.Fresh(i));
    var after := AfterWrite(b, files, i);
    forall j | 0 <= j < |b.sessions| && b.sessions[j].id == b.sessions[i].id
      ensures HasCheckpoint(after, b.mode.Name(), b.sessions[j].id)
      ensures after[(b.mode.Name(), b.sessions[j].id)].payload == Encode(b.mode.Name(), b.Fresh(i))
    {
    }
  }

  // ----- What each branch adds up -----

  /** What the checkpoint directory, if there is one, holds for session `i`. */
  function Known(b: Batch, dir: Option<Files>, i: nat): Option<Totals>
    requires i < |b.sessions|
  {
    if dir.Some? && HasCheckpoint(dir.value, b.mode.Name(), b.sessions[i].id)
    then Some(Decode(dir.value[(b.mode.Name(), b.sessions[i].id)].payload))
    else None
  }

  /** Session `i` read back from the directory, or else simulated. */
  function Looked(b: Batch, dir: Option<Files>, i: nat): Totals
    requires i < |b.sessions|
  {
    if Known(b, dir, i).Some? then Known(b, dir, i).value else b.Fresh(i)
  }

  /** The parallel branch looks every session up before anything is stored. */
  function ParallelParts(b: Batch, dir: Option<Files>): (parts: seq<Totals>)
    ensures |parts| == |b.sessions| && forall i :: 0 <= i < |parts| ==> parts[i] == Looked(b, dir, i)
  {
    seq(|b.sessions|, i requires 0 <= i < |b.sessions| => Looked(b, dir, i))
  }

  /** The directory once the serial branch has passed `n` sessions: it stores what it simulates. */
  function SerialDir(b: Batch, dir: Option<Files>, n: nat): Option<Files>
    requires n <= |b.sessions|
  {
    if n == 0 then dir
    else
      var before := SerialDir(b, dir, n - 1);
      if before.None? || Known(b, before, n - 1).Some? || b.sessions[n - 1].replay.None? then before
      else Some(AfterWrite(b, before.value, n - 1))
  }

  lemma SerialDirAtStart(b: Batch, dir: Option<Files>)
    ensures SerialDir(b, dir, 0) == dir
  {
  }

  /** The serial branch looks each session up in the directory as it then is. */
  function SerialParts(b: Batch, dir: Option<Files>): (parts: seq<Totals>)
    ensures |parts| == |b.sessions| && forall i :: 0 <= i < |parts| ==> parts[i] == Looked(b, SerialDir(b, dir, i), i)
  {
    seq(|b.sessions|, i requires 0 <= i < |b.sessions| => Looked(b, SerialDir(b, dir, i), i))
  }

  /** The directory once the first `n` of `order` have finished in the parallel branch. */
  function ParallelDir(b: Batch, dir: Option<Files>, order: seq<nat>, n: nat): Option<Files>
    requires n <= |order| && forall k :: 0 <= k < |order| ==> order[k] < |b.sessions|
  {
    if n == 0 then dir
    else
      var before := ParallelDir(b, dir, order, n - 1);
      if before.None? || Known(b, dir, order[n - 1]).Some? then before
      else Some(AfterWrite(b, before.value, order[n - 1]))
  }

  /** The first of the first `n` sessions that has this id and loads. */
  function FirstLoaded(b: Batch, id: string, n: nat): (first: Option<nat>)
    requires n <= |b.sessions|
    ensures first.Some? ==> first.value < n && b.sessions[first.value].id == id && b.sessions[first.value].replay.Some?
    ensures forall j :: 0 <= j < n && b.sessions[j].id == id && b.sessions[j].replay.Some?
                        ==> first.Some? && first.value <= j
  {
    if n == 0 then None
    else
      var earlier := FirstLoaded(b, id, n - 1);
      if earlier.Some? then earlier
      else if b.sessions[n - 1].id == id && b.sessions[n - 1].replay.Some? then Some(n - 1)
      else None
  }

  /** The last of the first `n` to finish that has this id. */
  function LastDone(b: Batch, id: string, order: seq<nat>, n: nat): (last: Option<nat>)
    requires n <= |order| && forall k :: 0 <= k < |order| ==> order[k] < |b.sessions|
    ensures last.Some? ==> last.value in order[..n] && last.value < |b.sessions| && b.sessions[last.value].id == id
    ensures last.None? ==> forall k :: 0 <= k < n ==> b.sessions[order[k]].id != id
  {
    if n == 0 then None
    else if b.sessions[order[n - 1]].id == id then Some(order[n - 1])
    else LastDone(b, id, order, n - 1)
  }

  /** In the parallel branch it comes to stand for the last session of that id to finish. */
  lemma {:induction false} ParallelKnown(b: Batch, files: Files, order: seq<nat>, n: nat, i: nat)
    requires n <= |order| && i < |b.sessions| && forall k :: 0 <= k < |order| ==> order[k] < |b.sessions|
    ensures ParallelDir(b, Some(files), order, n).Some?
    ensures var last := LastDone(b, b.sessions[i].id, order, n);
            Known(b, ParallelDir(b, Some(files), order, n), i)
            == if Known(b, Some(files), i).Some? then Known(b, Some(files), i)
               else if last.Some? then Some(b.Fresh(last.value)) else None
  {
    hide Batch.Fresh;
    hide Known;
    hide AfterWrite;
    if n > 0 {
      ParallelKnown(b, files, order, n - 1, i);
      var before, j := ParallelDir(b, Some(files), order, n - 1), order[n - 1];
      KnownAfterWrite(b, before.value, j, i);
      if b.sessions[i].id == b.sessions[j].id {
        KnownById(b, Some(files), i, j);
      }
    }
  }

  /** A finished run leaves a checkpoint for every session that loads. */
  lemma {:induction false} RunLeavesCheckpoints(b: Batch, files: Files, order: seq<nat>, i: nat)
    requires i < |b.sessions| && b.sessions[i].replay.Some? && CompletionOrder(order, |b.sessions|)
    ensures Known(b, SerialDir(b, Some(files), |b.sessions|), i).Some?
    ensures Known(b, ParallelDir(b, Some(files), order, |order|), i).Some?
  {
    hide Batch.Fresh;
    hide Known;
    hide SerialDir;
    hide ParallelDir;
    hide FirstLoaded;
    hide LastDone;
    SerialKnown(b, files, |b.sessions|, i);
    ParallelKnown(b, files, order, |order|, i);
    assert i in order;
    var k :| 0 <= k < |order| && order[k] == i;
  }

  lemma {:induction false} KnownAfterWrite(b: Batch, files: Files, j: nat, i: nat)
    requires i < |b.sessions| && j < |b.sessions|
    ensures Known(b, Some(AfterWrite(b, files, j)), i)
            == if b.sessions[i].id == b.sessions[j].id then Some(b.Fresh(j)) else Known(b, Some(files), i)
  {
    hide Batch.Fresh;
    hide Encode;
    hide Decode;
    CheckpointRoundTrip(b.mode.Name(), b.Fresh(j));
  }

  /** In the serial branch an id that was not checkpointed comes to stand for the first session of that id to load. */
  lemma {:induction false} SerialKnown(b: Batch, files: Files, n: nat, i: nat)
    requires n <= |b.sessions| && i < |b.sessions|
    ensures SerialDir(b, Some(files), n).Some?
    ensures var first := FirstLoaded(b, b.sessions[i].id, n);
            Known(b, SerialDir(b, Some(files), n), i)
            == if Known(b, Some(files), i).Some? then Known(b, Some(files), i)
               else if first.Some? then Some(b.Fresh(first.value)) else None
  {
    hide Batch.Fresh;
    hide Decode;
    hide AfterWrite;
    if n > 0 {
      SerialKnown(b, files, n - 1, i);
      SerialKnown(b, files, n - 1, n - 1);
      var before := SerialDir(b, Some(files), n - 1);
      KnownAfterWrite(b, before.value, n - 1, i);
      assert b.sessions[i].id == b.sessions[n - 1].id ==> Known(b, before, i) == Known(b, before, n - 1);
    }
  }

  /** Sessions that share an id not yet checkpointed agree, if the earlier of the two loads. */
  ghost predicate SharedIdsAgree(b: Batch, files: Files) {
    forall j, i :: 0 <= j < i < |b.sessions| && b.sessions[j].id == b.sessions[i].id
                   && b.sessions[j].replay.Some? && Known(b, Some(files), i).None?
                   ==> b.Fresh(j) == b.Fresh(i)
  }

  /**
    The two branches agree, part by part, exactly when sessions that share an
    id have the same totals wherever it matters: the id was not checkpointed
    and the earlier session of the two loads.
   */
  lemma {:induction false} WorkersShowIff(b: Batch, files: Files)
    ensures SerialParts(b, Some(files)) == ParallelParts(b, Some(files)) <==> SharedIdsAgree(b, files)
  {
    hide Batch.Fresh;
    hide Known;
    hide Looked;
    hide SerialDir;
    hide FirstLoaded;
    var serial, parallel := SerialParts(b, Some(files)), ParallelParts(b, Some(files));
    forall i | 0 <= i < |b.sessions|
      ensures serial[i] == parallel[i] <==> AgreesWithFirst(b, files, i)
    {
      LookedFrom(b, files, i);
    }
    if serial == parallel {
      forall j, i | 0 <= j < i < |b.sessions| && b.sessions[j].id == b.sessions[i].id &&
                    b.sessions[j].replay.Some? && Known(b, Some(files), i).None?
        ensures b.Fresh(j) == b.Fresh(i)
      {
        KnownById(b, Some(files), i, j);
        assert serial[i] == parallel[i] && serial[j] == parallel[j];
        FirstIsFirst(b, files, j, i);
      }
    }
  }

  /** Session `i` is checkpointed, or has the totals of the first session before it with its id that loads. */
  ghost predicate AgreesWithFirst(b: Batch, files: Files, i: nat)
    requires i < |b.sessions|
  {
    var first := FirstLoaded(b, b.sessions[i].id, i);
    Known(b, Some(files), i).Some? || first.None? || b.Fresh(first.value) == b.Fresh(i)
  }

  lemma LookedFrom(b: Batch, files: Files, i: nat)
    requires i < |b.sessions|
    ensures Looked(b, SerialDir(b, Some(files), i), i) == Looked(b, Some(files), i) <==> AgreesWithFirst(b, files, i)
  {
    hide Batch.Fresh;
    hide Known;
    hide SerialDir;
    hide FirstLoaded;
    SerialKnown(b, files, i, i);
  }

  lemma {:induction false} FirstIsFirst(b: Batch, files: Files, j: nat, i: nat)
    requires j < i < |b.sessions| && b.sessions[j].id == b.sessions[i].id && b.sessions[j].replay.Some?
    requires Known(b, Some(files), i).None? && AgreesWithFirst(b, files, j) && AgreesWithFirst(b, files, i)
    ensures b.Fresh(j) == b.Fresh(i)
  {
    hide Batch.Fresh;
    hide Known;
    hide FirstLoaded;
    KnownById(b, Some(files), i, j);
    var first, earlier := FirstLoaded(b, b.sessions[i].id, i), FirstLoaded(b, b.sessions[j].id, j);
    assert first.Some?;
    if first.value < j {
      assert earlier == first;
    }
  }

  lemma KnownById(b: Batch, dir: Option<Files>, i: nat, j: nat)
    requires i < |b.sessions| && j < |b.sessions| && b.sessions[i].id == b.sessions[j].id
    ensures Known(b, dir, i) == Known(b, dir, j)
  {
  }

  /** Two loading sessions with one id and an empty directory: the serial branch counts the first twice. */
  lemma {:induction false} CollisionCountsFirstTwice(b: Batch)
    requires |b.sessions| == 2 && b.sessions[0].id == b.sessions[1].id && b.sessions[0].replay.Some?
    ensures MergeAll(SerialParts(b, Some(map[]))) == b.Fresh(0).Plus(b.Fresh(0))
    ensures MergeAll(ParallelParts(b, Some(map[]))) == b.Fresh(0).Plus(b.Fresh(1))
  {
    hide Batch.Fresh;
    hide Totals.Plus;
    hide SerialDir;
    SerialKnown(b, map[], 0, 0);
    SerialKnown(b, map[], 1, 1);
    MergePair(SerialParts(b, Some(map[])));
    MergePair(ParallelParts(b, Some(map[])));
  }

  /** Two turns and then one under the same id: one worker counts four requests, more count three. */
  lemma {:induction false} CollisionShows(cfg: Settings, mode: Mode, model: string, msg: Message, id: string,
                                          workers: int)
    ensures var turns := TwoAnswers(cfg, model, msg);
            var b := Batch(cfg, mode, None, [SessionFile(id, Some(turns)), SessionFile(id, Some(turns[..1]))]);
            MergeAll(Yield(b, Some(map[]), workers)).requests == if workers > 1 then 3 else 4
  {
    hide SerialParts;
    hide ParallelParts;
    hide MergeAll;
    hide Batch.Fresh;
    var turns := TwoAnswers(cfg, model, msg);
    var b := Batch(cfg, mode, None, [SessionFile(id, Some(turns)), SessionFile(id, Some(turns[..1]))]);
    CollisionCountsFirstTwice(b);
    FreshRequests(b, 0);
    FreshRequests(b, 1);
  }

  lemma {:induction false} MergePair(parts: seq<Totals>)
    requires |parts| == 2
    ensures MergeAll(parts) == parts[0].Plus(parts[1])
  {
    hide Totals.Plus;
    assert parts[..1][..0] == [];
    assert MergeAll(parts[..1]) == ZERO.Plus(parts[0]);
    PlusLaws(ZERO, parts[0], ZERO);
    PlusLaws(parts[0], ZERO, ZERO);
  }

  /** What is in the directory is consistent with the batch. */
  ghost predicate Tidy(b: Batch, dir: Option<Files>) {
    dir.Some? ==> b.Consistent(dir.value)
  }

  /** Session `i` has no checkpoint, or one that can be read. */
  ghost predicate LegibleAt(b: Batch, dir: Option<Files>, i: nat)
    requires i < |b.sessions|
  {
    Known(b, dir, i).Some? ==> Readable(dir.value[(b.mode.Name(), b.sessions[i].id)].payload)
  }

  /** Every checkpoint of the batch can be read. */
  ghost predicate Legible(b: Batch, dir: Option<Files>) {
    forall i :: 0 <= i < |b.sessions| ==> LegibleAt(b, dir, i)
  }

  lemma {:induction false} LegibleAfterWrite(b: Batch, files: Files, j: nat, i: nat)
    requires j < |b.sessions| && i < |b.sessions|
    ensures LegibleAt(b, Some(AfterWrite(b, files, j)), i) <==>
            b.sessions[i].id == b.sessions[j].id || LegibleAt(b, Some(files), i)
  {
    hide Batch.Fresh;
    hide Encode;
    hide Decode;
    hide Readable;
    EncodeReadable(b.mode.Name(), b.Fresh(j));
  }

  /** What the serial branch stores can be read, and what was there it leaves as it was. */
  lemma {:induction false} SerialLegible(b: Batch, dir: Option<Files>, n: nat, i: nat)
    requires n <= |b.sessions| && i < |b.sessions|
    ensures LegibleAt(b, SerialDir(b, dir, n), i) <==> LegibleAt(b, dir, i)
  {
    hide Batch.Fresh;
    hide AfterWrite;
    hide Decode;
    hide Readable;
    if n > 0 {
      SerialLegible(b, dir, n - 1, i);
      var before := SerialDir(b, dir, n - 1);
      if before.Some? {
        LegibleAfterWrite(b, before.value, n - 1, i);
      }
    }
  }

  /** Only files of this mode may have changed. */
  ghost predicate SameElsewhere(before: Files, after: Files, mode: string) {
    forall k: (string, string) :: k.0 != mode ==>
      (k in before <==> k in after) && (k in before ==> before[k] == after[k])
  }

  /** The directory as the batch may leave it: other modes untouched, and consistent if the batch allows that. */
  ghost predicate Kept(b: Batch, before: Option<Files>, after: Option<Files>) {
    && (before.Some? <==> after.Some?)
    && (before.Some? ==> SameElsewhere(before.value, after.value, b.mode.Name()))
    && (b.IdsDetermineTotals() && Tidy(b, before) ==> Tidy(b, after))
  }

  lemma {:induction false} StoringKeeps(b: Batch, before: Option<Files>, files: Files, j: nat)
    requires j < |b.sessions| && Kept(b, before, Some(files))
    ensures Kept(b, before, Some(AfterWrite(b, files, j)))
  {
    hide Batch.Fresh;
    hide Batch.Consistent;
    hide Encode;
    if b.IdsDetermineTotals() && Tidy(b, before) {
      WriteKeepsConsistentIff(b, files, j);
    }
  }

  lemma {:induction false} SerialKeeps(b: Batch, dir: Option<Files>, n: nat)
    requires n <= |b.sessions|
    ensures Kept(b, dir, SerialDir(b, dir, n))
  {
    hide Batch.Fresh;
    hide Batch.Consistent;
    hide AfterWrite;
    hide Known;
    if n > 0 {
      SerialKeeps(b, dir, n - 1);
      var before := SerialDir(b, dir, n - 1);
      if before.Some? {
        StoringKeeps(b, dir, before.value, n - 1);
      }
    }
  }

  lemma {:induction false} ParallelKeeps(b: Batch, dir: Option<Files>, order: seq<nat>, n: nat)
    requires n <= |order| && forall k :: 0 <= k < |order| ==> order[k] < |b.sessions|
    ensures Kept(b, dir, ParallelDir(b, dir, order, n))
  {
    hide Batch.Fresh;
    hide Batch.Consistent;
    hide AfterWrite;
    hide Known;
    if n > 0 {
      ParallelKeeps(b, dir, order, n - 1);
      var before := ParallelDir(b, dir, order, n - 1);
      if before.Some? {
        StoringKeeps(b, dir, before.value, order[n - 1]);
      }
    }
  }

  lemma {:induction false} TidyLooksFresh(b: Batch, dir: Option<Files>, i: nat)
    requires i < |b.sessions| && Tidy(b, dir)
    ensures Looked(b, dir, i) == b.Fresh(i) && LegibleAt(b, dir, i)
  {
    hide Batch.Fresh;
    hide Decode;
    hide Readable;
  }

  /** Without a directory, or with an empty one, distinct ids are all it takes. */
  lemma {:induction false} SoundAtFirst(b: Batch)
    requires forall i, j :: 0 <= i < j < |b.sessions| ==> b.sessions[i].id != b.sessions[j].id
    ensures Sound(b, None) && Sound(b, Some(map[]))
  {
    hide Batch.Fresh;
    hide Batch.IdsDetermineTotals;
    DistinctIdsSuffice(b);
  }

  /** With a consistent directory and ids that determine totals, both branches add up fresh simulations. */
  lemma {:induction false} TidyParts(b: Batch, dir: Option<Files>)
    requires b.IdsDetermineTotals() && Tidy(b, dir)
    ensures SerialParts(b, dir) == b.FreshParts() && ParallelParts(b, dir) == b.FreshParts()
  {
    hide Batch.Fresh;
    hide Batch.Consistent;
    hide Looked;
    forall i | 0 <= i < |b.sessions|
      ensures Looked(b, SerialDir(b, dir, i), i) == b.Fresh(i) && Looked(b, dir, i) == b.Fresh(i)
    {
      SerialKeeps(b, dir, i);
      TidyLooksFresh(b, SerialDir(b, dir, i), i);
      TidyLooksFresh(b, dir, i);
    }
  }

  // ----- What the directory's name leaves out -----

  /** `resolve_checkpoint_dir`: the TTL and the trimming are in the name, no limit and zero being one. */
  datatype DirectoryName = DirectoryName(ttl: int, recent: Option<int>)

  function DirectoryOf(b: Batch): DirectoryName {
    DirectoryName(b.cfg.ttl, if b.recent.Some? && b.recent.value != 0 then b.recent else None)
  }

  /** Nothing session `i` writes to the cache costs anything. */
  ghost predicate WritesAreFree(b: Batch, i: nat)
    requires i < |b.sessions|
  {
    b.sessions[i].replay.None? ||
    var reqs := Requests(b.cfg, b.mode, TrimToRecent(b.sessions[i].replay.value, b.recent));
    forall k :: 0 <= k < |reqs| ==> FreeWrites(b.cfg, reqs, k)
  }

  lemma {:induction false} SameNameFresh(a: Batch, b: Batch, i: nat)
    requires DirectoryOf(a) == DirectoryOf(b) && a.mode == b.mode && a.sessions == b.sessions && i < |a.sessions|
    requires a.cfg.tokenizer == b.cfg.tokenizer && a.cfg.pricing == b.cfg.pricing
    requires forall model: string :: NoNegativePrice(a.cfg, model)
    ensures a.Fresh(i) == b.Fresh(i) <==> a.cfg.writeMultiplier == b.cfg.writeMultiplier || WritesAreFree(a, i)
  {
    hide SessionTotals;
    hide Requests;
    hide FreeWrites;
    var replay := a.sessions[i].replay;
    assert b.cfg == WithMultiplier(a.cfg, b.cfg.writeMultiplier);
    if replay.Some? {
      assert TrimToRecent(replay.value, a.recent) == TrimToRecent(replay.value, b.recent);
      MultiplierShowsIff(a.cfg, b.cfg.writeMultiplier, a.mode, TrimToRecent(replay.value, a.recent));
    }
  }

  /**
    The write multiplier is not in the name. Of two runs that share a directory
    and differ in nothing else, what one stores for a session is right for the
    other exactly when their multipliers are equal or its writes are free.
   */
  lemma {:induction false} SharedDirectoryIff(a: Batch, b: Batch, files: Files, i: nat)
    requires DirectoryOf(a) == DirectoryOf(b) && a.mode == b.mode && a.sessions == b.sessions && i < |a.sessions|
    requires a.cfg.tokenizer == b.cfg.tokenizer && a.cfg.pricing == b.cfg.pricing
    requires forall model: string :: NoNegativePrice(a.cfg, model)
    ensures Known(b, Some(AfterWrite(a, files, i)), i) == Some(b.Fresh(i)) <==>
            a.cfg.writeMultiplier == b.cfg.writeMultiplier || WritesAreFree(a, i)
  {
    hide Batch.Fresh;
    hide WritesAreFree;
    hide AfterWrite;
    hide Decode;
    KnownAfterWrite(a, files, i, i);
    SameNameFresh(a, b, i);
  }

  /** Two answers and no trimming: another multiplier finds a checkpoint that is wrong for it. */
  lemma {:induction false} SharedDirectoryFails(cfg: Settings, m: real, mode: Mode, model: string, msg: Message,
                                                files: Files)
    requires !mode.Token? && ChargesInput(cfg, model) && 0 < CountMessage(TokenizerFor(cfg, model), msg)
    requires m != cfg.writeMultiplier && forall model: string :: NoNegativePrice(cfg, model)
    ensures var a := Batch(cfg, mode, None, [SessionFile("session", Some(TwoAnswers(cfg, model, msg)))]);
            var b := a.(cfg := WithMultiplier(cfg, m));
            DirectoryOf(a) == DirectoryOf(b) && Known(b, Some(AfterWrite(a, files, 0)), 0) != Some(b.Fresh(0))
  {
    hide Batch.Fresh;
    hide Known;
    hide AfterWrite;
    hide Requests;
    hide FreeWrites;
    var a := Batch(cfg, mode, None, [SessionFile("session", Some(TwoAnswers(cfg, model, msg)))]);
    SharedDirectoryIff(a, a.(cfg := WithMultiplier(cfg, m)), files, 0);
    TwoAnswersPay(cfg, mode, model, msg);
  }

  // ----- Running a batch -----

  /** Simulate session `i` from scratch, trimmed as asked. */
  method SimulateFresh(b: Batch, i: nat) returns (partial: ModeSummary)
    requires i < |b.sessions|
    ensures fresh(partial) && partial.mode == b.mode.Name() && partial.Value() == b.Fresh(i)
  {
    if b.sessions[i].replay.None? {
      partial := new ModeSummary(b.mode.Name(), 0);
    } else {
      partial := SimulateReplay(b.cfg, b.mode, TrimToRecent(b.sessions[i].replay.value, b.recent));
    }
  }

  ghost function DirOf(store: CheckpointStore?): Option<Files>
    reads store
  {
    if store == null then None else Some(store.files)
  }

  /** Look a session up, if there is a checkpoint directory at all. */
  method LoadCached(b: Batch, i: nat, store: CheckpointStore?) returns (cached: ModeSummary?, raised: bool)
    requires i < |b.sessions|
    ensures raised <==> !LegibleAt(b, DirOf(store), i)
    ensures cached != null <==> Known(b, DirOf(store), i).Some? && !raised
    ensures cached != null ==> fresh(cached) && cached.Value() == Looked(b, DirOf(store), i)
  {
    hide Batch.Fresh;
    hide Decode;
    hide Readable;
    cached, raised := null, false;
    if store != null {
      cached, raised := store.Load(b.mode.Name(), b.sessions[i].id);
    }
  }

  /** Store a fresh result, if there is a checkpoint directory. */
  method SaveFresh(b: Batch, i: nat, store: CheckpointStore?, partial: ModeSummary)
    requires i < |b.sessions| && partial.mode == b.mode.Name() && partial.Value() == b.Fresh(i)
    modifies store
    ensures DirOf(store) == if store == null then None else Some(AfterWrite(b, old(DirOf(store)).value, i))
  {
    if store != null {
      store.Write(b.mode.Name(), b.sessions[i].id, partial);
    }
  }

  /** One session of the serial branch: looked up, or simulated, stored and merged if it loads. */
  method RunSession(b: Batch, store: CheckpointStore?, summary: ModeSummary, i: nat, ghost origin: Option<Files>)
    returns (raised: bool)
    requires i < |b.sessions| && DirOf(store) == SerialDir(b, origin, i)
    modifies store, summary
    ensures raised <==> !LegibleAt(b, origin, i)
    ensures raised ==> DirOf(store) == SerialDir(b, origin, i)
    ensures !raised ==> DirOf(store) == SerialDir(b, origin, i + 1)
    ensures !raised ==> summary.Value() == old(summary.Value()).Plus(Looked(b, SerialDir(b, origin, i), i))
  {
    hide Totals.Plus;
    hide SessionTotals;
    hide AfterWrite;
    hide LegibleAt;
    SerialLegible(b, origin, i, i);
    var cached;
    cached, raised := LoadCached(b, i, store);
    if raised {
      return;
    }
    if cached != null {
      summary.Merge(cached);
    } else if b.sessions[i].replay.Some? {
      var partial := SimulateFresh(b, i);
      SaveFresh(b, i, store, partial);
      summary.Merge(partial);
    } else {
      PlusLaws(summary.Value(), ZERO, ZERO);
    }
  }

  /** The serial branch: each session is looked up, simulated if need be, stored and merged in turn. */
  method RunSerial(b: Batch, store: CheckpointStore?, summary: ModeSummary) returns (raised: bool, ghost passed: nat)
    requires summary.Value() == ZERO
    modifies store, summary
    ensures raised <==> !Legible(b, old(DirOf(store)))
    ensures passed <= |b.sessions| && DirOf(store) == SerialDir(b, old(DirOf(store)), passed)
    ensures raised ==> passed < |b.sessions| && !LegibleAt(b, old(DirOf(store)), passed)
    ensures !raised ==> passed == |b.sessions| && summary.Value() == MergeAll(SerialParts(b, old(DirOf(store))))
  {
    hide Totals.Plus;
    hide LegibleAt;
    hide Looked;
    hide SerialDir;
    ghost var origin := DirOf(store);
    ghost var parts := SerialParts(b, origin);
    SerialDirAtStart(b, origin);
    for i := 0 to |b.sessions|
      invariant summary.Value() == MergeAll(parts[..i])
      invariant DirOf(store) == SerialDir(b, origin, i)
      invariant forall j :: 0 <= j < i ==> LegibleAt(b, origin, j)
    {
      assert parts[..i + 1][..i] == parts[..i];
      raised := RunSession(b, store, summary, i, origin);
      if raised {
        return true, i;
      }
    }
    assert parts[..|parts|] == parts;
    return false, |b.sessions|;
  }

  /** Every index exactly once: the order in which sessions happen to finish. */
  ghost predicate CompletionOrder(order: seq<nat>, n: nat) {
    && (forall k :: 0 <= k < |order| ==> order[k] < n)
    && (forall k, l :: 0 <= k < l < |order| ==> order[k] != order[l])
    && (forall i :: 0 <= i < n ==> i in order)
  }

  /** The parallel branch: checkpoints first, then the remaining sessions as they complete. */
  method RunParallel(b: Batch, store: CheckpointStore?, summary: ModeSummary, order: seq<nat>) returns (raised: bool)
    requires summary.Value() == ZERO && CompletionOrder(order, |b.sessions|)
    modifies store, summary
    ensures raised <==> !Legible(b, old(DirOf(store)))
    ensures raised ==> DirOf(store) == old(DirOf(store))
    ensures !raised ==> DirOf(store) == ParallelDir(b, old(DirOf(store)), order, |order|)
    ensures !raised ==> summary.Value() == MergeAll(ParallelParts(b, old(DirOf(store))))
  {
    hide Looked;
    hide Known;
    hide Legible;
    hide ParallelDir;
    ghost var origin := DirOf(store);
    ghost var parts := ParallelParts(b, origin);
    ghost var merged: set<nat>;
    var submitted: set<nat>;
    submitted, raised, merged := MergeCached(b, store, summary);
    if raised {
      return;
    }
    MergeCompleted(b, store, summary, order, submitted, merged, origin);
    SumOfAll(parts, |parts|, merged + submitted);
    assert parts[..|parts|] == parts;
  }

  /** First half: merge what is checkpointed, submit the rest. */
  method MergeCached(b: Batch, store: CheckpointStore?, summary: ModeSummary)
    returns (submitted: set<nat>, raised: bool, ghost merged: set<nat>)
    requires summary.Value() == ZERO
    modifies summary
    ensures raised <==> !Legible(b, DirOf(store))
    ensures !raised ==> merged !! submitted
    ensures !raised ==> forall i :: i in submitted <==> 0 <= i < |b.sessions| && Known(b, DirOf(store), i).None?
    ensures !raised ==> forall i :: 0 <= i < |b.sessions| ==> i in merged || i in submitted
    ensures !raised ==> summary.Value() == SumOf(ParallelParts(b, DirOf(store)), |b.sessions|, merged)
  {
    hide Totals.Plus;
    hide SumOf;
    hide LegibleAt;
    hide Known;
    hide Looked;
    ghost var parts := ParallelParts(b, DirOf(store));
    submitted, merged, raised := {}, {}, false;
    SumOfNone(parts, |parts|);
    for i := 0 to |b.sessions|
      invariant !raised && forall j :: 0 <= j < i ==> LegibleAt(b, DirOf(store), j)
      invariant merged !! submitted && forall j :: j in merged ==> j < i
      invariant forall j :: j in submitted <==> 0 <= j < i && Known(b, DirOf(store), j).None?
      invariant forall j :: 0 <= j < i ==> j in merged || j in submitted
      invariant summary.Value() == SumOf(parts, |parts|, merged)
    {
      var cached;
      cached, raised := LoadCached(b, i, store);
      if raised {
        return;
      }
      if cached != null {
        SumOfAdd(parts, |parts|, merged, i);
        merged := merged + {i};
        summary.Merge(cached);
      } else {
        submitted := submitted + {i};
      }
    }
  }

  /** Second half: simulate, store and merge the submitted sessions as they complete. */
  method MergeCompleted(b: Batch, store: CheckpointStore?, summary: ModeSummary, order: seq<nat>,
                        submitted: set<nat>, ghost merged: set<nat>, ghost origin: Option<Files>)
    requires CompletionOrder(order, |b.sessions|) && merged !! submitted && DirOf(store) == origin
    requires forall i :: i in submitted <==> 0 <= i < |b.sessions| && Known(b, origin, i).None?
    requires summary.Value() == SumOf(ParallelParts(b, origin), |b.sessions|, merged)
    modifies store, summary
    ensures summary.Value() == SumOf(ParallelParts(b, origin), |b.sessions|, merged + submitted)
    ensures DirOf(store) == ParallelDir(b, origin, order, |order|)
  {
    hide Totals.Plus;
    hide SumOf;
    hide Known;
    hide AfterWrite;
    ghost var parts := ParallelParts(b, origin);
    ghost var done: set<nat> := {};
    assert merged + done == merged;
    for k := 0 to |order|
      invariant forall i :: i in done <==> i in submitted && i in order[..k]
      invariant summary.Value() == SumOf(parts, |parts|, merged + done)
      invariant DirOf(store) == ParallelDir(b, origin, order, k)
    {
      var i := order[k];
      if i in submitted {
        var partial := SimulateFresh(b, i);
        SaveFresh(b, i, store, partial);
        SumOfAdd(parts, |parts|, merged + done, i);
        assert merged + (done + {i}) == merged + done + {i};
        done := done + {i};
        summary.Merge(partial);
      }
    }
    assert order[..|order|] == order;
    assert done == submitted;
  }

  /** More than one worker and more than one session: the parallel branch. */
  predicate RunsParallel(b: Batch, workers: int) {
    (if workers > 0 then workers else 1) > 1 && |b.sessions| > 1
  }

  /** What the branch that is taken adds up. */
  ghost function Yield(b: Batch, dir: Option<Files>, workers: int): seq<Totals> {
    if RunsParallel(b, workers) then ParallelParts(b, dir) else SerialParts(b, dir)
  }

  /** The ids determine the totals, and the directory is consistent with the batch. */
  ghost predicate Sound(b: Batch, dir: Option<Files>) {
    b.IdsDetermineTotals() && Tidy(b, dir)
  }

  /**
    One mode of `simulate_session_files`. Whatever is already checkpointed,
    however many workers there are and in whatever order they finish, the
    summary is the sum of the sessions simulated one by one from scratch,
    provided the checkpoints are right and ids that are shared agree. What is
    summed without that proviso is said as well, and that a checkpoint which
    cannot be read, and nothing else, ends the run.
   */
  method SimulateMode(b: Batch, store: CheckpointStore?, workers: int, order: seq<nat>)
    returns (summary: ModeSummary, raised: bool)
    requires CompletionOrder(order, |b.sessions|)
    modifies store
    ensures fresh(summary) && summary.mode == b.mode.Name() && Kept(b, old(DirOf(store)), DirOf(store))
    ensures raised <==> !Legible(b, old(DirOf(store)))
    ensures !raised ==> summary.Value() == MergeAll(Yield(b, old(DirOf(store)), workers))
    ensures Sound(b, old(DirOf(store))) ==> !raised && summary.Value() == MergeAll(b.FreshParts())
  {
    hide Sound;
    hide SerialDir;
    hide ParallelDir;
    hide LegibleAt;
    hide Legible;
    hide Kept;
    ghost var dir := DirOf(store);
    summary := new ModeSummary(b.mode.Name(), 0);
    var workerCount := if workers > 0 then workers else 1;
    if workerCount > 1 && |b.sessions| > 1 {
      raised := RunParallel(b, store, summary, order);
      ParallelKeeps(b, dir, order, if raised then 0 else |order|);
      ParallelDirAtStart(b, dir, order);
    } else {
      ghost var passed;
      raised, passed := RunSerial(b, store, summary);
      SerialKeeps(b, dir, passed);
    }
    if Sound(b, dir) {
      SoundYield(b, dir, workers);
    }
  }

  lemma ParallelDirAtStart(b: Batch, dir: Option<Files>, order: seq<nat>)
    requires forall k :: 0 <= k < |order| ==> order[k] < |b.sessions|
    ensures ParallelDir(b, dir, order, 0) == dir
  {
  }

  lemma {:induction false} SoundYield(b: Batch, dir: Option<Files>, workers: int)
    requires Sound(b, dir)
    ensures Legible(b, dir) && Yield(b, dir, workers) == b.FreshParts()
  {
    hide Batch.IdsDetermineTotals;
    hide Tidy;
    hide LegibleAt;
    TidyParts(b, dir);
    forall i | 0 <= i < |b.sessions|
      ensures LegibleAt(b, dir, i)
    {
      TidyLooksFresh(b, dir, i);
    }
  }

  // ----- Three modes over one directory -----

  /** A run of another mode leaves a session's checkpoint as it was. */
  lemma {:induction false} KnownElsewhere(b: Batch, ran: Batch, before: Option<Files>, after: Option<Files>, i: nat)
    requires Kept(ran, before, after) && b.mode.Name() != ran.mode.Name() && i < |b.sessions|
    ensures Known(b, after, i) == Known(b, before, i) && (LegibleAt(b, after, i) <==> LegibleAt(b, before, i))
  {
    hide Batch.IdsDetermineTotals;
    hide Tidy;
    hide Decode;
    hide Readable;
    if before.Some? {
      var key := (b.mode.Name(), b.sessions[i].id);
      assert key.0 != ran.mode.Name();
      assert key in before.value <==> key in after.value;
    }
  }

  lemma {:induction false} SerialElsewhere(b: Batch, before: Option<Files>, after: Option<Files>, i: nat)
    requires (before.Some? <==> after.Some?) && i < |b.sessions| && Known(b, after, i) == Known(b, before, i)
    ensures Looked(b, SerialDir(b, after, i), i) == Looked(b, SerialDir(b, before, i), i)
  {
    hide Batch.Fresh;
    hide Known;
    if before.Some? {
      SerialKnown(b, before.value, i, i);
      SerialKnown(b, after.value, i, i);
    } else {
      SerialNowhere(b, i);
    }
  }

  lemma {:induction false} SerialNowhere(b: Batch, n: nat)
    requires n <= |b.sessions|
    ensures SerialDir(b, None, n) == None
  {
    hide Known;
    hide AfterWrite;
    if n > 0 {
      SerialNowhere(b, n - 1);
    }
  }

  /** For a batch, one directory is as good as the other. */
  ghost predicate AsGood(b: Batch, before: Option<Files>, after: Option<Files>, workers: int) {
    && (Legible(b, after) <==> Legible(b, before))
    && Yield(b, after, workers) == Yield(b, before, workers)
    && (Sound(b, before) ==> Sound(b, after))
  }

  /** A run of one mode changes nothing for a batch of another. */
  lemma {:induction false} OtherModesUntouched(b: Batch, ran: Batch, before: Option<Files>, after: Option<Files>,
                                               workers: int)
    requires Kept(ran, before, after) && b.mode.Name() != ran.mode.Name()
    ensures AsGood(b, before, after, workers)
  {
    hide Batch.IdsDetermineTotals;
    hide Batch.Fresh;
    hide Batch.Consistent;
    hide SameElsewhere;
    hide Known;
    hide LegibleAt;
    hide Looked;
    hide SerialDir;
    forall i | 0 <= i < |b.sessions|
      ensures LegibleAt(b, after, i) <==> LegibleAt(b, before, i)
      ensures Looked(b, after, i) == Looked(b, before, i)
      ensures Looked(b, SerialDir(b, after, i), i) == Looked(b, SerialDir(b, before, i), i)
    {
      KnownElsewhere(b, ran, before, after, i);
      LookedByKnown(b, before, after, i);
      SerialElsewhere(b, before, after, i);
    }
    assert ParallelParts(b, after) == ParallelParts(b, before) && SerialParts(b, after) == SerialParts(b, before);
    if Sound(b, before) {
      OtherModesStayTidy(b, ran, before, after);
    }
  }

  lemma LookedByKnown(b: Batch, before: Option<Files>, after: Option<Files>, i: nat)
    requires i < |b.sessions| && Known(b, after, i) == Known(b, before, i)
    ensures Looked(b, after, i) == Looked(b, before, i)
  {
  }

  lemma {:induction false} OtherModesStayTidy(b: Batch, ran: Batch, before: Option<Files>, after: Option<Files>)
    requires Tidy(b, before) && Kept(ran, before, after) && b.mode.Name() != ran.mode.Name()
    ensures Tidy(b, after)
  {
    hide Batch.Fresh;
    hide Batch.IdsDetermineTotals;
    hide Decode;
    hide Readable;
    if after.Some? {
      forall i | 0 <= i < |b.sessions| && HasCheckpoint(after.value, b.mode.Name(), b.sessions[i].id)
        ensures var payload := after.value[(b.mode.Name(), b.sessions[i].id)].payload;
                Readable(payload) && Decode(payload) == b.Fresh(i)
      {
        assert (b.mode.Name(), b.sessions[i].id) in before.value;
      }
    }
  }

  /** A summary is the sum of what the batch yields, and of fresh simulations if the directory was sound. */
  ghost predicate SumsUp(summary: ModeSummary, b: Batch, dir: Option<Files>, workers: int)
    reads summary
  {
    && summary.mode == b.mode.Name()
    && summary.Value() == MergeAll(Yield(b, dir, workers))
    && (Sound(b, dir) ==> summary.Value() == MergeAll(b.FreshParts()))
  }

  /** `simulate_session_files`: the three modes one after the other over the same checkpoint directory. */
  method SimulateSessionFiles(base: Batch, tok: Batch, cache: Batch, store: CheckpointStore?, workers: int,
                              orders: (seq<nat>, seq<nat>, seq<nat>))
    returns (baseline: ModeSummary?, token: ModeSummary?, cached: ModeSummary?)
    requires base.mode.Baseline? && tok.mode.Token? && cache.mode.Cache?
    requires CompletionOrder(orders.0, |base.sessions|) && CompletionOrder(orders.1, |tok.sessions|)
    requires CompletionOrder(orders.2, |cache.sessions|)
    modifies store
    ensures var dir := old(DirOf(store));
            if Legible(base, dir) && Legible(tok, dir) && Legible(cache, dir) then
              && baseline != null && fresh(baseline) && SumsUp(baseline, base, dir, workers)
              && token != null && fresh(token) && SumsUp(token, tok, dir, workers)
              && cached != null && fresh(cached) && SumsUp(cached, cache, dir, workers)
            else baseline == null && token == null && cached == null
    ensures baseline != null ==> baseline.mode == "baseline" && token != null && token.mode == "token"
    ensures baseline != null ==> cached != null && cached.mode == "cache"
    ensures var dir, after := old(DirOf(store)), DirOf(store);
            && (Sound(base, dir) ==> Sound(base, after))
            && (Sound(tok, dir) ==> Sound(tok, after))
            && (Sound(cache, dir) ==> Sound(cache, after))
  {
    hide Sound;
    hide Kept;
    hide Legible;
    hide Yield;
    ghost var d0 := DirOf(store);
    var summary, raised := SimulateMode(base, store, workers, orders.0);
    ghost var d1 := DirOf(store);
    SoundAfterOwnRun(base, d0, d1);
    OtherModesUntouched(tok, base, d0, d1, workers);
    OtherModesUntouched(cache, base, d0, d1, workers);
    if raised {
      return null, null, null;
    }
    baseline := summary;
    summary, raised := SimulateMode(tok, store, workers, orders.1);
    ghost var d2 := DirOf(store);
    SoundAfterOwnRun(tok, d1, d2);
    OtherModesUntouched(base, tok, d1, d2, workers);
    OtherModesUntouched(cache, tok, d1, d2, workers);
    if raised {
      return null, null, null;
    }
    token := summary;
    summary, raised := SimulateMode(cache, store, workers, orders.2);
    SoundAfterOwnRun(cache, d2, DirOf(store));
    OtherModesUntouched(base, cache, d2, DirOf(store), workers);
    OtherModesUntouched(tok, cache, d2, DirOf(store), workers);
    if raised {
      return null, null, null;
    }
    cached := summary;
  }

  lemma SoundAfterOwnRun(b: Batch, before: Option<Files>, after: Option<Files>)
    requires Kept(b, before, after)
    ensures Sound(b, before) ==> Sound(b, after)
  {
    hide Batch.IdsDetermineTotals;
    hide Tidy;
    hide SameElsewhere;
  }

  // ----- Laws of whole batches -----

  /** No session of a cache-mode batch busts, so neither does the aggregate. */
  lemma {:induction false} BatchCacheModeNeverBusts(b: Batch, n: nat)
    requires b.mode.Cache? && n <= |b.sessions|
    ensures MergeAll(b.FreshParts()[..n]).cache.busts == 0 && MergeAll(b.FreshParts()[..n]).rewrites.busting == 0
  {
    hide Batch.Fresh;
    if n > 0 {
      BatchCacheModeNeverBusts(b, n - 1);
      FreshCacheModeNeverBusts(b, n - 1);
      assert b.FreshParts()[..n][..n - 1] == b.FreshParts()[..n - 1];
    }
  }

  lemma {:induction false} FreshCacheModeNeverBusts(b: Batch, i: nat)
    requires b.mode.Cache? && i < |b.sessions|
    ensures b.Fresh(i).cache.busts == 0 && b.Fresh(i).rewrites.busting == 0
  {
    hide SessionTotals;
    hide Requests;
    var replay := b.sessions[i].replay;
    if replay.Some? {
      CacheModeNeverBusts(b.cfg, b.mode.pipeline, TrimToRecent(replay.value, b.recent));
    }
  }

  lemma ZeroLawful()
    ensures Lawful(ZERO)
  {
  }

  /** Loaded replays have turns, so every aggregate obeys the counter laws. */
  lemma {:induction false} BatchLawful(b: Batch)
    requires forall i :: 0 <= i < |b.sessions| && b.sessions[i].replay.Some? ==> b.sessions[i].replay.value != []
    ensures Lawful(MergeAll(b.FreshParts()))
  {
    hide Lawful;
    hide SessionTotals;
    hide Requests;
    forall i | 0 <= i < |b.sessions|
      ensures Lawful(b.FreshParts()[i])
    {
      ZeroLawful();
      if b.sessions[i].replay.Some? {
        SessionLawful(b.cfg, Requests(b.cfg, b.mode, TrimToRecent(b.sessions[i].replay.value, b.recent)));
      }
    }
    MergedLawful(b.FreshParts());
  }
}
