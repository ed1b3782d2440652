/** What a replay sends and counts, said of the recorded turns themselves: their messages, times and prices. */
module Outcomes {
  import opened Json
  import opened Prefix
  import opened Accounting
  import opened Replay
  import opened ReplayLaws
  import opened BustDetectors
  import opened Selection

  // ----- What is sent -----

  /** What a turn adds to the request before it, as the mode sends it. */
  function Added(mode: Mode, turns: seq<ReplayTurn>, k: nat): seq<Message>
    requires k < |turns| && !mode.Token?
  {
    var inputs := turns[k].inputs;
    if mode.Baseline? || k == 0 then inputs
    else if inputs == [] then []
    else mode.pipeline(turns[..k + 1], inputs)
  }

  lemma {:induction false} FirstRequest(cfg: Settings, mode: Mode, history: seq<ReplayTurn>)
    requires |history| == 1
    ensures var r, turn := NextRequest(cfg, mode, None, history), history[0];
            && r.original == turn.inputs && r.prior == 0
            && r.raw == Tokens(TokenizerFor(cfg, turn.model), turn.inputs)
            && r.forwarded == if mode.Token? then mode.compress(history) else turn.inputs
  {
    assert [] + history[0].inputs == history[0].inputs;
  }

  lemma {:induction false} LaterRequest(cfg: Settings, mode: Mode, last: Request, history: seq<ReplayTurn>)
    requires history != [] && (mode.Baseline? ==> last.forwarded == last.original)
    ensures var r, turn := NextRequest(cfg, mode, Some(last), history), history[|history| - 1];
            && r.original == last.original + [last.turn.assistant] + turn.inputs
            && r.prior == |last.original| + 1
            && r.raw == last.raw + CountMessage(TokenizerFor(cfg, last.turn.model), last.turn.assistant)
                        + Tokens(TokenizerFor(cfg, turn.model), turn.inputs)
            && r.forwarded == match mode
                              case Token(compress) => compress(history)
                              case Baseline => last.forwarded + [last.turn.assistant] + turn.inputs
                              case Cache(pipeline) =>
                                last.forwarded + [last.turn.assistant]
                                + if turn.inputs == [] then [] else pipeline(history, turn.inputs)
  {
    hide Tokens;
    var turn := history[|history| - 1];
    var all := last.Answered() + turn.inputs;
    assert all[..|last.Answered()|] == last.Answered() && all[|last.Answered()|..] == turn.inputs;
  }

  lemma {:induction false} BaselineSendsAll(cfg: Settings, turns: seq<ReplayTurn>, k: nat)
    requires k < |turns|
    ensures Requests(cfg, Baseline, turns)[k].forwarded == Requests(cfg, Baseline, turns)[k].original
  {
    RequestAt(cfg, Baseline, turns, k);
  }

  /**
    Request by request: the conversation is everything said so far, its count
    adds each message at its own turn's tokenizer, and what is forwarded is the
    previous request, its answer, and the new input as the mode sends it.
   */
  lemma {:induction false} RequestMeaning(cfg: Settings, mode: Mode, turns: seq<ReplayTurn>, k: nat)
    requires k < |turns|
    ensures var reqs, turn := Requests(cfg, mode, turns), turns[k];
            var counted := Tokens(TokenizerFor(cfg, turn.model), turn.inputs);
            && reqs[k].turn == turn
            && (k == 0 ==>
                  reqs[0].original == turn.inputs && reqs[0].raw == counted && reqs[0].prior == 0)
            && (k > 0 ==>
                  var answer, t := turns[k - 1].assistant, TokenizerFor(cfg, turns[k - 1].model);
                  && reqs[k].original == reqs[k - 1].original + [answer] + turn.inputs
                  && reqs[k].raw == reqs[k - 1].raw + CountMessage(t, answer) + counted
                  && reqs[k].prior == |reqs[k].original| - |turn.inputs|)
            && (mode.Token? ==> reqs[k].forwarded == mode.compress(turns[..k + 1]))
            && (!mode.Token? && k == 0 ==> reqs[0].forwarded == turn.inputs)
            && (!mode.Token? && k > 0 ==>
                  reqs[k].forwarded == reqs[k - 1].forwarded + [turns[k - 1].assistant] + Added(mode, turns, k))
  {
    hide NextRequest;
    hide Tokens;
    hide Requests;
    RequestAt(cfg, mode, turns, k);
    if k == 0 {
      FirstRequest(cfg, mode, turns[..1]);
    } else {
      RequestAt(cfg, mode, turns, k - 1);
      if mode.Baseline? {
        BaselineSendsAll(cfg, turns, k - 1);
      }
      LaterRequest(cfg, mode, Requests(cfg, mode, turns)[k - 1], turns[..k + 1]);
    }
  }

  // ----- What is counted -----

  /** Turn `k` comes within the time to live of the turn before it. */
  predicate InTime(cfg: Settings, turns: seq<ReplayTurn>, k: nat)
    requires k < |turns|
  {
    k > 0 && turns[k].timestamp - turns[k - 1].timestamp <= cfg.ttl
  }

  lemma {:induction false} WarmIffInTime(cfg: Settings, mode: Mode, turns: seq<ReplayTurn>, k: nat)
    requires k < |turns|
    ensures WarmAt(cfg, Requests(cfg, mode, turns), k) <==> InTime(cfg, turns, k)
  {
    hide Requests;
    RequestAt(cfg, mode, turns, k);
    if k > 0 {
      RequestAt(cfg, mode, turns, k - 1);
    }
  }

  /** The nine turn counters of a summary. */
  datatype Counter =
    | Eligible | Busted | Expired
    | Rewritten | Stable | Busting | NonEligible | Retroactive | LatestOnly

  function Value(t: Totals, c: Counter): int {
    match c
    case Eligible => t.cache.eligible
    case Busted => t.cache.busts
    case Expired => t.cache.expired
    case Rewritten => t.rewrites.all
    case Stable => t.rewrites.stable
    case Busting => t.rewrites.busting
    case NonEligible => t.rewrites.nonEligible
    case Retroactive => t.rewrites.retroactive
    case LatestOnly => t.rewrites.latestOnly
  }

  /** The messages that were there before turn `k` said anything. */
  function Old(reqs: seq<Request>, k: nat): seq<Message>
    requires k < |reqs| && |reqs[k].turn.inputs| <= |reqs[k].original|
  {
    reqs[k].original[..|reqs[k].original| - |reqs[k].turn.inputs|]
  }

  /** What it takes for turn `k` to be counted. */
  ghost predicate Counts(cfg: Settings, turns: seq<ReplayTurn>, reqs: seq<Request>, k: nat, c: Counter)
    requires k < |turns| == |reqs| && |reqs[k].turn.inputs| <= |reqs[k].original|
  {
    var sent := reqs[k].forwarded;
    var rewritten, inTime := sent != reqs[k].original, InTime(cfg, turns, k);
    var kept := k > 0 && reqs[k - 1].forwarded <= sent;
    var something := k > 0 && reqs[k - 1].forwarded != [];
    match c
    case Eligible => inTime
    case Busted => inTime && !kept
    case Expired => k > 0 && !inTime
    case Rewritten => rewritten
    case Stable => rewritten && inTime && something && kept
    case Busting => rewritten && inTime && !kept
    case NonEligible => rewritten && !(inTime && something)
    case Retroactive => rewritten && !(Old(reqs, k) <= sent)
    case LatestOnly => rewritten && Old(reqs, k) <= sent
  }

  /** The turns among the first `n` that are counted. */
  ghost function CountedTurns(cfg: Settings, mode: Mode, turns: seq<ReplayTurn>, n: nat, c: Counter): set<nat>
    requires n <= |turns|
  {
    set k: nat | k < n && CountsIn(cfg, mode, turns, k, c)
  }

  ghost predicate CountsIn(cfg: Settings, mode: Mode, turns: seq<ReplayTurn>, k: nat, c: Counter)
    requires k < |turns|
  {
    RequestMeaning(cfg, mode, turns, k);
    Counts(cfg, turns, Requests(cfg, mode, turns), k, c)
  }

  /** What turn `k` alone adds to a counter. */
  function ValueAt(cfg: Settings, reqs: seq<Request>, k: nat, c: Counter): int
    requires k < |reqs|
  {
    Value(ZERO.(cache := CacheAt(cfg, reqs, k), rewrites := RewritesAt(cfg, reqs, k)), c)
  }

  lemma {:induction false} CountedOnce(cfg: Settings, mode: Mode, turns: seq<ReplayTurn>, k: nat, c: Counter)
    requires k < |turns|
    ensures ValueAt(cfg, Requests(cfg, mode, turns), k, c) == if CountsIn(cfg, mode, turns, k, c) then 1 else 0
  {
    hide Requests;
    RequestMeaning(cfg, mode, turns, k);
    WarmIffInTime(cfg, mode, turns, k);
  }

  lemma {:induction false} ValueStep(cfg: Settings, reqs: seq<Request>, n: nat, c: Counter)
    requires n < |reqs|
    ensures Value(PartialTotals(cfg, reqs, n + 1, n + 1), c)
            == Value(PartialTotals(cfg, reqs, n, n), c) + ValueAt(cfg, reqs, n, c)
  {
    hide CacheAt;
    hide RewritesAt;
    hide TokensUpTo;
    hide CostsUpTo;
  }

  /** Each counter is the number of turns that it should count, in any mode and after any number of turns. */
  lemma {:induction false} CountersCount(cfg: Settings, mode: Mode, turns: seq<ReplayTurn>, n: nat, c: Counter)
    requires n <= |turns|
    ensures Value(PartialTotals(cfg, Requests(cfg, mode, turns), n, n), c)
            == |CountedTurns(cfg, mode, turns, n, c)|
  {
    hide Requests;
    hide PartialTotals;
    hide Value;
    hide ValueAt;
    hide CountsIn;
    hide CountedTurns;
    var reqs := Requests(cfg, mode, turns);
    if n == 0 {
      NothingCounted(cfg, reqs, c);
      NothingCountedYet(cfg, mode, turns, c);
    } else {
      CountersCount(cfg, mode, turns, n - 1, c);
      ValueStep(cfg, reqs, n - 1, c);
      CountedOnce(cfg, mode, turns, n - 1, c);
      CountedStep(cfg, mode, turns, n - 1, c);
    }
  }

  lemma {:induction false} CountedStep(cfg: Settings, mode: Mode, turns: seq<ReplayTurn>, n: nat, c: Counter)
    requires n < |turns|
    ensures |CountedTurns(cfg, mode, turns, n + 1, c)|
            == |CountedTurns(cfg, mode, turns, n, c)| + if CountsIn(cfg, mode, turns, n, c) then 1 else 0
  {
    hide CountsIn;
    CountedNow(cfg, mode, turns, n, c);
  }

  lemma {:induction false} CountedNow(cfg: Settings, mode: Mode, turns: seq<ReplayTurn>, n: nat, c: Counter)
    requires n < |turns|
    ensures var before := CountedTurns(cfg, mode, turns, n, c);
            && n !in before && (forall k :: k in before ==> k < n)
            && CountedTurns(cfg, mode, turns, n + 1, c)
               == if CountsIn(cfg, mode, turns, n, c) then before + {n} else before
  {
    hide CountsIn;
  }

  lemma NothingCountedYet(cfg: Settings, mode: Mode, turns: seq<ReplayTurn>, c: Counter)
    ensures |CountedTurns(cfg, mode, turns, 0, c)| == 0
  {
  }

  lemma NothingCounted(cfg: Settings, reqs: seq<Request>, c: Counter)
    ensures Value(PartialTotals(cfg, reqs, 0, 0), c) == 0
  {
  }

  // ----- What the detectors report -----

  /** The lists agree before `i` and not at `i`. */
  ghost predicate PartAt(a: seq<Message>, b: seq<Message>, i: nat) {
    i <= |a| && i <= |b| && a[..i] == b[..i] && (i < |a| && i < |b| ==> a[i] != b[i])
  }

  /** A direct event that says what happened at turn `k`. */
  ghost predicate Reports(e: DirectEvent, turns: seq<ReplayTurn>, reqs: seq<Request>, k: nat) {
    && 0 < k < |turns| == |reqs|
    && e.requestId == turns[k].requestId && e.previousRequestId == turns[k - 1].requestId
    && e.previousForwarded == reqs[k - 1].forwarded && e.currentForwarded == reqs[k].forwarded
    && PartAt(e.previousForwarded, e.currentForwarded, e.divergentIndex)
  }

  /** A traced event that does, for a turn that did not keep its predecessor. */
  ghost predicate ReportsTrace(e: TraceEvent, id: string, turns: seq<ReplayTurn>, reqs: seq<Request>, k: nat) {
    && 0 < k < |turns| == |reqs|
    && var prev, sent, original := reqs[k - 1].forwarded, reqs[k].forwarded, reqs[k].original;
       && e.sessionId == id && e.requestId == turns[k].requestId && e.timestamp == turns[k].timestamp
       && e.firstDiff.Some? && PartAt(prev, sent, e.firstDiff.value) && e.firstDiff.value < |prev|
       && e.prevLen == |prev| && e.currLen == |sent|
       && e.prevMsg == Some(prev[e.firstDiff.value])
       && e.currMsg == (if e.firstDiff.value < |sent| then Some(sent[e.firstDiff.value]) else None)
       && (e.retroactive <==>
           sent != original && (|sent| < |prev| - 1 || !(original[..Min(|prev| - 1, |original|)] <= sent)))
  }

  lemma {:induction false} BustReported(cfg: Settings, mode: Mode, turns: seq<ReplayTurn>, id: string, k: nat)
    requires k < |turns|
    ensures var reqs := Requests(cfg, mode, turns);
            && (Bust(cfg, reqs, k) <==> CountsIn(cfg, mode, turns, k, Busted))
            && (Bust(cfg, reqs, k) ==> k > 0 && Reports(DirectAt(reqs, k), turns, reqs, k)
                                       && ReportsTrace(TraceAt(id, reqs, k), id, turns, reqs, k))
  {
    hide Requests;
    hide Reports;
    hide ReportsTrace;
    hide TraceAt;
    hide DirectAt;
    RequestMeaning(cfg, mode, turns, k);
    WarmIffInTime(cfg, mode, turns, k);
    if Bust(cfg, Requests(cfg, mode, turns), k) {
      RequestAt(cfg, mode, turns, k - 1);
      EventsReport(turns, Requests(cfg, mode, turns), id, k);
    }
  }

  lemma {:induction false} EventsReport(turns: seq<ReplayTurn>, reqs: seq<Request>, id: string, k: nat)
    requires 0 < k < |turns| == |reqs| && reqs[k].turn == turns[k] && reqs[k - 1].turn == turns[k - 1]
    requires !(reqs[k - 1].forwarded <= reqs[k].forwarded)
    ensures Reports(DirectAt(reqs, k), turns, reqs, k) && ReportsTrace(TraceAt(id, reqs, k), id, turns, reqs, k)
  {
    hide RewriteScope;
    hide CommonLen;
    var prev, sent := reqs[k - 1].forwarded, reqs[k].forwarded;
    DiffIndexMeaning(prev, sent);
    RewriteScopeMeaning(reqs[k].original, sent, |prev| - 1);
  }

  lemma NothingListed(cfg: Settings, mode: Mode, turns: seq<ReplayTurn>)
    ensures Lists([], CountedTurns(cfg, mode, turns, 0, Busted))
  {
  }

  /** The direct detector's events are the busted turns, one each and in order, with what happened there. */
  lemma {:induction false} DirectEventsMeaning(cfg: Settings, mode: Mode, turns: seq<ReplayTurn>, n: nat)
      returns (at: seq<nat>)
    requires n <= |turns|
    ensures var reqs := Requests(cfg, mode, turns);
            var events := DirectEvents(cfg, reqs, n);
            && Lists(at, CountedTurns(cfg, mode, turns, n, Busted)) && |at| == |events|
            && forall j :: 0 <= j < |at| ==> Reports(events[j], turns, reqs, at[j])
  {
    hide Requests;
    hide Reports;
    hide Bust;
    hide DirectAt;
    hide CountsIn;
    hide Lists;
    hide CountedTurns;
    at := [];
    NothingListed(cfg, mode, turns);
    if n > 0 {
      at := DirectEventsMeaning(cfg, mode, turns, n - 1);
      BustReported(cfg, mode, turns, "", n - 1);
      CountedNow(cfg, mode, turns, n - 1, Busted);
      if CountsIn(cfg, mode, turns, n - 1, Busted) {
        ListsSnoc(at, CountedTurns(cfg, mode, turns, n - 1, Busted), n - 1);
        at := at + [n - 1];
      }
    }
  }

  /** So are the trace's, for all turns but the last. */
  lemma {:induction false} TraceEventsMeaning(cfg: Settings, mode: Mode, turns: seq<ReplayTurn>, id: string, n: nat)
      returns (at: seq<nat>)
    requires n <= |turns|
    ensures var reqs := Requests(cfg, mode, turns);
            var events := TraceEvents(cfg, id, reqs, n);
            && Lists(at, CountedTurns(cfg, mode, turns, n, Busted)) && |at| == |events|
            && forall j :: 0 <= j < |at| ==> ReportsTrace(events[j], id, turns, reqs, at[j])
  {
    hide Requests;
    hide ReportsTrace;
    hide Bust;
    hide TraceAt;
    hide CountsIn;
    hide Lists;
    hide CountedTurns;
    at := [];
    NothingListed(cfg, mode, turns);
    if n > 0 {
      at := TraceEventsMeaning(cfg, mode, turns, id, n - 1);
      BustReported(cfg, mode, turns, id, n - 1);
      CountedNow(cfg, mode, turns, n - 1, Busted);
      if CountsIn(cfg, mode, turns, n - 1, Busted) {
        ListsSnoc(at, CountedTurns(cfg, mode, turns, n - 1, Busted), n - 1);
        at := at + [n - 1];
      }
    }
  }

  lemma {:induction false} SessionTraceMeaning(cfg: Settings, mode: Mode, session: Session) returns (at: seq<nat>)
    ensures var turns, reqs := session.turns, Requests(cfg, mode, session.turns);
            var events := SessionTrace(cfg, mode, session);
            && Lists(at, CountedTurns(cfg, mode, turns, Max(|turns| - 1, 0), Busted)) && |at| == |events|
            && forall j :: 0 <= j < |at| ==> ReportsTrace(events[j], session.id, turns, reqs, at[j])
  {
    at := TraceEventsMeaning(cfg, mode, session.turns, session.id, Max(|session.turns| - 1, 0));
  }

  // ----- How the tokens split -----

  /** The most tokens that a common prefix of two lists has. */
  ghost predicate IsShared(t: Tokenizer, a: seq<Message>, b: seq<Message>, tokens: nat) {
    && (exists p :: p <= a && p <= b && Tokens(t, p) == tokens)
    && (forall p :: p <= a && p <= b ==> Tokens(t, p) <= tokens)
  }

  lemma {:induction false} CommonPrefixIsShared(t: Tokenizer, a: seq<Message>, b: seq<Message>)
    ensures IsShared(t, a, b, Tokens(t, b[..CommonLen(a, b)]))
  {
    hide Tokens;
    var l := CommonLen(a, b);
    assert b[..l] <= a && b[..l] <= b;
    forall p: seq<Message> | p <= a && p <= b
      ensures Tokens(t, p) <= Tokens(t, b[..l])
    {
      assert forall i :: 0 <= i < |p| ==> a[i] == p[i] && b[i] == p[i];
      assert |p| <= l;
      assert p == b[..|p|] <= b[..l];
      TokensMonotone(t, p, b[..l]);
    }
  }

  /** The number of tokens is what the law says, whatever number that is. */
  ghost predicate Splits(t: Tokenizer, counts: TokenCounts, before: Option<seq<Message>>, sent: seq<Message>,
                         after: Option<seq<Message>>)
  {
    && counts.forwarded == Tokens(t, sent) + t.overhead
    && counts.read >= 0
    && (if before.None? then counts.read == 0 else IsShared(t, before.value, sent, counts.read))
    && (if after.None? then counts.write == 0
        else exists shared: nat :: IsShared(t, sent, after.value, shared)
                                   && counts.read + counts.write == Max(counts.read, shared))
    && counts.regular == counts.forwarded - counts.read - counts.write
  }

  lemma {:induction false} SplitOf(cfg: Settings, turn: ReplayTurn, raw: nat, cur: Sent, prev: Option<Sent>,
                                   next: Option<Sent>)
    ensures var before := if Warm(cfg, prev, cur) then Some(prev.value.forwarded) else None;
            var after := if next.Some? && Warm(cfg, Some(cur), next.value) then Some(next.value.forwarded) else None;
            var counts := TokensOf(cfg, turn, raw, cur, prev, next);
            Splits(TokenizerFor(cfg, turn.model), counts, before, cur.forwarded, after)
  {
    hide Tokens;
    hide CommonLen;
    hide Warm;
    hide IsShared;
    var t, f := TokenizerFor(cfg, turn.model), cur.forwarded;
    if Warm(cfg, prev, cur) {
      WarmHasPrevious(cfg, prev, cur);
      CommonPrefixIsShared(t, prev.value.forwarded, f);
    }
    if next.Some? && Warm(cfg, Some(cur), next.value) {
      var g := next.value.forwarded;
      CommonPrefixIsShared(t, f, g);
      assert f[..CommonLen(f, g)] == g[..CommonLen(f, g)];
      assert IsShared(t, f, g, Tokens(t, f[..CommonLen(f, g)]));
    }
  }

  lemma WarmHasPrevious(cfg: Settings, prev: Option<Sent>, cur: Sent)
    requires Warm(cfg, prev, cur)
    ensures prev.Some?
  {
  }

  /**
    A turn in time reads the most it shares with the request before it, and with
    the next one in time it has read or written the most it shares with either;
    its output and raw figures are the turn's own.
   */
  lemma {:induction false} SplitMeaning(cfg: Settings, mode: Mode, turns: seq<ReplayTurn>, k: nat)
    requires k < |turns|
    ensures var reqs := Requests(cfg, mode, turns);
            var before := if InTime(cfg, turns, k) then Some(reqs[k - 1].forwarded) else None;
            var after := if k + 1 < |turns| && InTime(cfg, turns, k + 1) then Some(reqs[k + 1].forwarded) else None;
            && Splits(TokenizerFor(cfg, turns[k].model), TokensAt(cfg, reqs, k), before, reqs[k].forwarded, after)
            && TokensAt(cfg, reqs, k).output == turns[k].outputTokens
            && TokensAt(cfg, reqs, k).raw == reqs[k].raw
  {
    hide Requests;
    hide Splits;
    var reqs := Requests(cfg, mode, turns);
    RequestAt(cfg, mode, turns, k);
    WarmIffInTime(cfg, mode, turns, k);
    if k + 1 < |turns| {
      WarmIffInTime(cfg, mode, turns, k + 1);
    }
    SplitOf(cfg, turns[k], reqs[k].raw, reqs[k].AsSent(), Before(reqs, k), After(reqs, k));
  }

  // ----- What it costs -----

  /** Dollars per million tokens of input and of output for a model. */
  ghost predicate Prices(cfg: Settings, model: string, input: real, output: real) {
    match cfg.pricing(model)
    case Some(p) => input == p.inputPer1M && output == p.outputPer1M
    case None =>
      if OccursIn("opus", model) then input == 15.0 && output == 75.0
      else if OccursIn("haiku", model) then input == 1.0 && output == 5.0
      else input == 3.0 && output == 15.0
  }

  lemma {:induction false} RatesFromPrices(cfg: Settings, model: string, input: real, output: real)
    requires Prices(cfg, model, input, output)
    ensures var r := ResolveRates(cfg, model);
            && r.input == input / 1000000.0 && r.output == output / 1000000.0
            && r.cacheRead == input / 10000000.0 && r.cacheWrite == cfg.writeMultiplier * (input / 1000000.0)
  {
    hide Contains;
    hide OccursIn;
    ContainsIff(model, "opus");
    ContainsIff(model, "haiku");
  }

  /** A million times a turn's costs are its token counts at the model's prices, reads at a tenth of the input price. */
  lemma {:induction false} CostMeaning(cfg: Settings, mode: Mode, turns: seq<ReplayTurn>, k: nat, input: real,
                                       output: real)
    requires k < |turns| && Prices(cfg, turns[k].model, input, output)
    ensures var reqs := Requests(cfg, mode, turns);
            var counts, costs := TokensAt(cfg, reqs, k), CostsAt(cfg, reqs, k);
            && costs.paidInput * 1000000.0 == counts.regular as real * input
            && costs.cacheRead * 10000000.0 == counts.read as real * input
            && costs.cacheWrite * 1000000.0 == counts.write as real * (cfg.writeMultiplier * input)
            && costs.paidOutput * 1000000.0 == turns[k].outputTokens as real * output
            && costs.total == costs.paidInput + costs.cacheRead + costs.cacheWrite + costs.paidOutput
  {
    hide Requests;
    hide ResolveRates;
    hide Prices;
    hide TokensAt;
    hide Splits;
    RequestAt(cfg, mode, turns, k);
    RatesFromPrices(cfg, turns[k].model, input, output);
    SplitMeaning(cfg, mode, turns, k);
    var counts := TokensAt(cfg, Requests(cfg, mode, turns), k);
    ScaledCost(counts.regular, input, 1.0);
    ScaledCost(counts.read, input, 1.0);
    ScaledCost(counts.write, input, cfg.writeMultiplier);
    ScaledCost(counts.output, output, 1.0);
  }

  lemma {:induction false} ScaledCost(tokens: int, price: real, m: real)
    ensures AtRate(tokens, m * (price / 1000000.0)) * 1000000.0 == tokens as real * (m * price)
    ensures AtRate(tokens, price / 1000000.0) * 1000000.0 == tokens as real * price
    ensures AtRate(tokens, price / 10000000.0) * 10000000.0 == tokens as real * price
  {
    var x := tokens as real;
    assert m * (price / 1000000.0) * 1000000.0 == m * price;
    assert x * (m * (price / 1000000.0)) * 1000000.0 == x * (m * (price / 1000000.0) * 1000000.0);
    assert x * (price / 1000000.0) * 1000000.0 == x * (price / 1000000.0 * 1000000.0);
    assert x * (price / 10000000.0) * 10000000.0 == x * (price / 10000000.0 * 10000000.0);
  }
}
