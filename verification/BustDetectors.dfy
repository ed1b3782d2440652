/** Two other loops that look for cache busts, and how they compare with the simulator's counter. */
module BustDetectors {
  import opened Json
  import opened Prefix
  import opened Accounting
  import opened Replay
  import opened ReplayLaws

  predicate Bust(cfg: Settings, reqs: seq<Request>, k: nat)
    requires k < |reqs|
  {
    Busts(cfg, Before(reqs, k), reqs[k].AsSent())
  }

  /** A request as these loops keep it, without the token counts. */
  datatype Pending = Pending(turn: ReplayTurn, requestMessages: seq<Message>, forwarded: seq<Message>)

  function PendingOf(r: Request): Pending { Pending(r.turn, r.original, r.forwarded) }

  /** The conversation variables of such a loop before turn `i`. */
  ghost predicate InStepAt(reqs: seq<Request>, i: nat, conversation: seq<Message>,
                           originalContext: Option<seq<Message>>, forwardedContext: Option<seq<Message>>)
    requires i <= |reqs|
  {
    var last := LastBefore(reqs, i);
    && conversation == Conversation(last)
    && originalContext == OriginalContext(last)
    && forwardedContext == ForwardedContext(last)
  }

  /** The mode step of these loops, and the conversation variables once the assistant has answered. */
  method ForwardTurn(ghost cfg: Settings, mode: Mode, turns: seq<ReplayTurn>, i: nat, before: seq<Message>,
                     originalContext: Option<seq<Message>>, forwardedContext: Option<seq<Message>>)
    returns (request: Pending, answered: seq<Message>, original: Option<seq<Message>>, context: Option<seq<Message>>)
    requires i < |turns| && InStepAt(Requests(cfg, mode, turns), i, before, originalContext, forwardedContext)
    ensures request == PendingOf(Requests(cfg, mode, turns)[i])
    ensures InStepAt(Requests(cfg, mode, turns), i + 1, answered, original, context)
  {
    RequestAt(cfg, mode, turns, i);
    var turn, conversation := turns[i], before + turns[i].inputs;
    var forwarded := ApplyMode(mode, turns[..i + 1], conversation, originalContext, forwardedContext);
    request := Pending(turn, conversation, forwarded);
    answered := conversation + [turn.assistant];
    original, context := Some(answered), Some(forwarded + [turn.assistant]);
  }

  lemma InStepAtStart(reqs: seq<Request>)
    ensures InStepAt(reqs, 0, [], None, None) && Trailing(reqs, 0, [], None)
  {
  }

  // ----- The direct detector of the synthetic report -----

  datatype DirectEvent = DirectEvent(
    requestId: string,
    previousRequestId: string,
    divergentIndex: nat,
    previousForwarded: seq<Message>,
    currentForwarded: seq<Message>)

  function DirectAt(reqs: seq<Request>, k: nat): DirectEvent
    requires 0 < k < |reqs|
  {
    DirectEvent(reqs[k].turn.requestId, reqs[k - 1].turn.requestId,
                CommonLen(reqs[k - 1].forwarded, reqs[k].forwarded),
                reqs[k - 1].forwarded, reqs[k].forwarded)
  }

  /** One event for each bust among the first `n` requests, in order. */
  function DirectEvents(cfg: Settings, reqs: seq<Request>, n: nat): seq<DirectEvent>
    requires n <= |reqs|
  {
    if n == 0 then []
    else DirectEvents(cfg, reqs, n - 1) + if Bust(cfg, reqs, n - 1) then [DirectAt(reqs, n - 1)] else []
  }

  /** The first index at which two lists differ, or the shorter length. */
  method DivergentIndex(prev: seq<Message>, curr: seq<Message>) returns (index: nat)
    ensures index == CommonLen(prev, curr)
  {
    index := 0;
    while index < |prev| && index < |curr| && prev[index] == curr[index]
      invariant index <= |prev| && index <= |curr|
      invariant prev[..index] == curr[..index]
    {
      assert prev[..index + 1] == prev[..index] + [prev[index]];
      assert curr[..index + 1] == curr[..index] + [curr[index]];
      index := index + 1;
    }
    CommonLenUnique(prev, curr, index);
  }

  /** The detector's memory of the request before turn `i`. */
  ghost predicate Remembers(reqs: seq<Request>, i: nat, request: Option<seq<Message>>, id: string,
                            timestamp: Option<int>)
    requires i <= |reqs|
  {
    if i == 0 then request == None && timestamp == None
    else request == Some(reqs[i - 1].forwarded) && id == reqs[i - 1].turn.requestId &&
         timestamp == Some(reqs[i - 1].turn.timestamp)
  }

  /** The event for one request, if it busts. */
  method DetectBust(cfg: Settings, ghost reqs: seq<Request>, ghost i: nat, request: Pending,
                    previousRequest: Option<seq<Message>>, previousId: string, previousTimestamp: Option<int>)
    returns (found: seq<DirectEvent>)
    requires i < |reqs| && request == PendingOf(reqs[i])
    requires Remembers(reqs, i, previousRequest, previousId, previousTimestamp)
    ensures found == if Bust(cfg, reqs, i) then [DirectAt(reqs, i)] else []
  {
    found := [];
    var turn, forwarded := request.turn, request.forwarded;
    if previousRequest.Some? && WithinTtl(turn.timestamp, previousTimestamp, cfg.ttl)
       && !PrefixPreserved(previousRequest.value, forwarded) {
      var index := DivergentIndex(previousRequest.value, forwarded);
      found := [DirectEvent(turn.requestId, previousId, index, previousRequest.value, forwarded)];
    }
  }

  /** `_build_bust_events`, for one mode: it compares each request with the one before as it goes. */
  method BuildBustEvents(cfg: Settings, mode: Mode, turns: seq<ReplayTurn>) returns (events: seq<DirectEvent>)
    ensures events == DirectEvents(cfg, Requests(cfg, mode, turns), |turns|)
  {
    hide Bust;
    hide DirectAt;
    hide Requests;
    hide InStepAt;
    ghost var all := Requests(cfg, mode, turns);
    InStepAtStart(all);
    events := [];
    var conversation: seq<Message> := [];
    var previousOriginal: Option<seq<Message>>, previousContext: Option<seq<Message>> := None, None;
    var previousRequest: Option<seq<Message>>, previousId, previousTimestamp: Option<int> := None, "", None;

    for i := 0 to |turns|
      invariant InStepAt(all, i, conversation, previousOriginal, previousContext)
      invariant Remembers(all, i, previousRequest, previousId, previousTimestamp)
      invariant events == DirectEvents(cfg, all, i)
    {
      var request;
      request, conversation, previousOriginal, previousContext :=
        ForwardTurn(cfg, mode, turns, i, conversation, previousOriginal, previousContext);
      var turn := request.turn;
      var found := DetectBust(cfg, all, i, request, previousRequest, previousId, previousTimestamp);
      events := events + found;
      previousRequest, previousId, previousTimestamp := Some(request.forwarded), turn.requestId, Some(turn.timestamp);
    }
  }

  /** The direct detector finds exactly as many busts as the lagged simulator counts. */
  lemma {:induction false} DirectCountsBusts(cfg: Settings, reqs: seq<Request>, n: nat)
    requires n <= |reqs|
    ensures |DirectEvents(cfg, reqs, n)| == CacheUpTo(cfg, reqs, n).busts
  {
    if n > 0 {
      DirectCountsBusts(cfg, reqs, n - 1);
    }
  }

  // ----- The trace of the bust report -----

  datatype TraceEvent = TraceEvent(
    sessionId: string,
    requestId: string,
    timestamp: int,
    firstDiff: Option<nat>,
    prevLen: nat,
    currLen: nat,
    prevMsg: Option<Message>,
    currMsg: Option<Message>,
    retroactive: bool)

  datatype Session = Session(id: string, turns: seq<ReplayTurn>)

  function MessageAt(ms: seq<Message>, index: Option<nat>): Option<Message> {
    if index.Some? && index.value < |ms| then Some(ms[index.value]) else None
  }

  function TraceAt(id: string, reqs: seq<Request>, k: nat): TraceEvent
    requires 0 < k < |reqs|
  {
    var prev, cur := reqs[k - 1].forwarded, reqs[k].forwarded;
    var index := DiffIndex(prev, cur);
    TraceEvent(id, reqs[k].turn.requestId, reqs[k].turn.timestamp, index, |prev|, |cur|,
               MessageAt(prev, index), MessageAt(cur, index),
               RewriteScope(reqs[k].original, cur, Max(|prev| - 1, 0)).1)
  }

  /** The event for request `k`, if it busts. */
  function Traced(cfg: Settings, id: string, reqs: seq<Request>, k: nat): seq<TraceEvent>
    requires k < |reqs|
  {
    if Bust(cfg, reqs, k) then [TraceAt(id, reqs, k)] else []
  }

  /** The traced busts among the first `n` requests of a session. */
  function TraceEvents(cfg: Settings, id: string, reqs: seq<Request>, n: nat): seq<TraceEvent>
    requires n <= |reqs|
  {
    if n == 0 then []
    else TraceEvents(cfg, id, reqs, n - 1) + Traced(cfg, id, reqs, n - 1)
  }

  /** What tracing one session yields: its last turn stays pending and is never looked at. */
  function SessionTrace(cfg: Settings, mode: Mode, session: Session): seq<TraceEvent> {
    TraceEvents(cfg, session.id, Requests(cfg, mode, session.turns), Max(|session.turns| - 1, 0))
  }

  /** How a session is compressed once other sessions have been: they all share one proxy. */
  type Proxy = seq<Session> -> Mode

  function AllTraces(cfg: Settings, proxy: Proxy, sessions: seq<Session>): seq<TraceEvent> {
    if sessions == [] then []
    else
      var earlier, last := sessions[..|sessions| - 1], sessions[|sessions| - 1];
      AllTraces(cfg, proxy, earlier) + SessionTrace(cfg, proxy(earlier), last)
  }

  lemma {:induction false} TraceEventsPrefix(cfg: Settings, id: string, reqs: seq<Request>, n: nat, m: nat)
    requires n <= m <= |reqs|
    ensures TraceEvents(cfg, id, reqs, n) <= TraceEvents(cfg, id, reqs, m)
    decreases m
  {
    hide Traced;
    if n < m {
      TraceEventsPrefix(cfg, id, reqs, n, m - 1);
    }
  }

  lemma {:induction false} AllTracesPrefix(cfg: Settings, proxy: Proxy, sessions: seq<Session>, m: nat)
    requires m <= |sessions|
    ensures AllTraces(cfg, proxy, sessions[..m]) <= AllTraces(cfg, proxy, sessions)
    decreases |sessions|
  {
    if m == |sessions| {
      assert sessions[..m] == sessions;
    } else {
      var front := sessions[..|sessions| - 1];
      AllTracesPrefix(cfg, proxy, front, m);
      assert front[..m] == sessions[..m];
    }
  }

  /** The event `trace_mode` appends for its pending turn `k`, if that turn busts. */
  method TracePending(cfg: Settings, id: string, ghost reqs: seq<Request>, ghost k: nat, pending: Pending,
                      previousForwarded: seq<Message>, previousTimestamp: Option<int>)
    returns (found: seq<TraceEvent>)
    requires k < |reqs| && pending == PendingOf(reqs[k])
    requires Trailing(reqs, k + 1, previousForwarded, previousTimestamp)
    ensures found == Traced(cfg, id, reqs, k) && |found| <= 1
  {
    found := [];
    if WithinTtl(pending.turn.timestamp, previousTimestamp, cfg.ttl) && previousForwarded != [] {
      if !PrefixPreserved(previousForwarded, pending.forwarded) {
        var index := FirstDiffIndex(previousForwarded, pending.forwarded);
        var (_, retro) := RewriteScope(pending.requestMessages, pending.forwarded, Max(|previousForwarded| - 1, 0));
        found := [TraceEvent(id, pending.turn.requestId, pending.turn.timestamp, index,
                             |previousForwarded|, |pending.forwarded|,
                             MessageAt(previousForwarded, index), MessageAt(pending.forwarded, index), retro)];
      }
    }
  }

  lemma TraceEventsStep(cfg: Settings, id: string, reqs: seq<Request>, n: nat)
    requires n <= |reqs|
    ensures TraceEvents(cfg, id, reqs, 0) == []
    ensures n > 0 ==> TraceEvents(cfg, id, reqs, n) == TraceEvents(cfg, id, reqs, n - 1) + Traced(cfg, id, reqs, n - 1)
  {
  }

  /** Where the loop's previous request is once turn `i` has been passed. */
  lemma TrailingStep(reqs: seq<Request>, i: nat, forwarded: seq<Message>, timestamp: Option<int>)
    requires i < |reqs|
    requires if i == 0 then Trailing(reqs, 0, forwarded, timestamp)
             else forwarded == PendingOf(reqs[i - 1]).forwarded &&
                  timestamp == Some(PendingOf(reqs[i - 1]).turn.timestamp)
    ensures Trailing(reqs, i + 1, forwarded, timestamp)
  {
  }

  /** One session of `trace_mode`, stopping as soon as `cap` events have been collected. */
  method TraceSession(cfg: Settings, mode: Mode, session: Session, earlier: seq<TraceEvent>, cap: int)
    returns (events: seq<TraceEvent>, full: bool)
    requires |earlier| < Max(cap, 1)
    ensures full ==> |events| == Max(cap, 1) && events <= earlier + SessionTrace(cfg, mode, session)
    ensures !full ==> |events| < Max(cap, 1) && events == earlier + SessionTrace(cfg, mode, session)
  {
    hide Traced;
    hide TraceEvents;
    hide Trailing;
    hide PendingOf;
    hide Requests;
    hide InStepAt;
    var turns := session.turns;
    ghost var all := Requests(cfg, mode, turns);
    InStepAtStart(all);
    TraceEventsStep(cfg, session.id, all, 0);
    events, full := earlier, false;
    var conversation: seq<Message> := [];
    var previousForwarded: seq<Message>, previousTimestamp: Option<int> := [], None;
    var originalContext: Option<seq<Message>>, forwardedContext: Option<seq<Message>> := None, None;
    var pending: Option<Pending> := None;

    for i := 0 to |turns|
      invariant |events| < Max(cap, 1)
      invariant pending == if i == 0 then None else Some(PendingOf(all[i - 1]))
      invariant InStepAt(all, i, conversation, originalContext, forwardedContext)
      invariant Trailing(all, i, previousForwarded, previousTimestamp)
      invariant events == earlier + TraceEvents(cfg, session.id, all, Max(i - 1, 0))
    {
      var request;
      request, conversation, originalContext, forwardedContext :=
        ForwardTurn(cfg, mode, turns, i, conversation, originalContext, forwardedContext);
      if pending.Some? {
        var found := TracePending(cfg, session.id, all, i - 1, pending.value, previousForwarded, previousTimestamp);
        events := events + found;
        TraceEventsStep(cfg, session.id, all, i);
        if found != [] && |events| >= cap {
          TraceEventsPrefix(cfg, session.id, all, i, |turns| - 1);
          return events, true;
        }
        previousForwarded, previousTimestamp := pending.value.forwarded, Some(pending.value.turn.timestamp);
      }
      TrailingStep(all, i, previousForwarded, previousTimestamp);
      pending := Some(request);
    }
  }

  function First(events: seq<TraceEvent>, n: nat): seq<TraceEvent> {
    events[..Min(n, |events|)]
  }

  /** `trace_mode`: the events of all sessions in order, cut off at the cap (and never below one). */
  method TraceMode(cfg: Settings, proxy: Proxy, sessions: seq<Session>, cap: int) returns (events: seq<TraceEvent>)
    ensures events == First(AllTraces(cfg, proxy, sessions), Max(cap, 1))
  {
    hide SessionTrace;
    events := [];
    for j := 0 to |sessions|
      invariant |events| < Max(cap, 1)
      invariant events == AllTraces(cfg, proxy, sessions[..j])
    {
      var full;
      events, full := TraceSession(cfg, proxy(sessions[..j]), sessions[j], events, cap);
      assert sessions[..j + 1][..j] == sessions[..j];
      if full {
        AllTracesPrefix(cfg, proxy, sessions, j + 1);
        return;
      }
    }
    assert sessions[..|sessions|] == sessions;
  }

  /** Turn for turn, both detectors report the same request and the same point of divergence. */
  lemma {:induction false} TraceMatchesDirect(cfg: Settings, id: string, reqs: seq<Request>, n: nat)
    requires n <= |reqs|
    ensures var direct, trace := DirectEvents(cfg, reqs, n), TraceEvents(cfg, id, reqs, n);
            && |trace| == |direct|
            && forall j :: 0 <= j < |trace| ==> SameBust(trace[j], direct[j])
  {
    hide Bust;
    hide TraceAt;
    hide DirectAt;
    hide SameBust;
    if n > 0 {
      TraceMatchesDirect(cfg, id, reqs, n - 1);
      if Bust(cfg, reqs, n - 1) {
        BustSeenAlike(cfg, id, reqs, n - 1);
      }
    }
  }

  /** The two events name the same request, and the same message of the previous one as where they part. */
  ghost predicate SameBust(trace: TraceEvent, direct: DirectEvent) {
    && trace.requestId == direct.requestId
    && trace.firstDiff == Some(direct.divergentIndex)
    && trace.prevLen == |direct.previousForwarded|
    && direct.divergentIndex < trace.prevLen
    && trace.prevMsg == Some(direct.previousForwarded[direct.divergentIndex])
  }

  lemma {:induction false} BustSeenAlike(cfg: Settings, id: string, reqs: seq<Request>, k: nat)
    requires k < |reqs| && Bust(cfg, reqs, k)
    ensures SameBust(TraceAt(id, reqs, k), DirectAt(reqs, k))
  {
    hide RewriteScope;
    DiffIndexMeaning(reqs[k - 1].forwarded, reqs[k].forwarded);
  }

  /** Never flushing the pending turn loses a bust on the last turn, and no other. */
  lemma {:induction false} TraceMissesOnlyLastBust(cfg: Settings, mode: Mode, session: Session)
    ensures var reqs := Requests(cfg, mode, session.turns);
            var n := |reqs|;
            |SessionTrace(cfg, mode, session)|
            == SessionTotals(cfg, reqs).cache.busts - (if n > 0 && Bust(cfg, reqs, n - 1) then 1 else 0)
  {
    hide Requests;
    hide Bust;
    hide TokensUpTo;
    hide CostsUpTo;
    hide RewritesUpTo;
    var reqs := Requests(cfg, mode, session.turns);
    var n := |reqs|;
    DirectCountsBusts(cfg, reqs, n);
    if n > 0 {
      DirectCountsBusts(cfg, reqs, n - 1);
      TraceMatchesDirect(cfg, session.id, reqs, n - 1);
    }
  }

  /** In cache mode none of the three loops ever has anything to report. */
  lemma {:induction false} CacheModeTracesNothing(cfg: Settings, pipeline: Pipeline, session: Session)
    ensures DirectEvents(cfg, Requests(cfg, Cache(pipeline), session.turns), |session.turns|) == []
    ensures SessionTrace(cfg, Cache(pipeline), session) == []
  {
    var reqs := Requests(cfg, Cache(pipeline), session.turns);
    CacheModeNeverBusts(cfg, pipeline, session.turns);
    DirectCountsBusts(cfg, reqs, |reqs|);
    TraceMissesOnlyLastBust(cfg, Cache(pipeline), session);
  }

  /** Nor has a trace of many sessions, whatever the compressor learns from one for the next. */
  lemma {:induction false} CacheModeTracesNothingAnywhere(cfg: Settings, proxy: Proxy, sessions: seq<Session>)
    requires forall earlier :: proxy(earlier).Cache?
    ensures AllTraces(cfg, proxy, sessions) == []
  {
    hide SessionTrace;
    if sessions != [] {
      var earlier, last := sessions[..|sessions| - 1], sessions[|sessions| - 1];
      CacheModeTracesNothingAnywhere(cfg, proxy, earlier);
      CacheModeTracesNothing(cfg, proxy(earlier).pipeline, last);
    }
  }
}
