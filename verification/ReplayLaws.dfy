/** What holds of every replayed session, for any mode or for the modes that replay their prefix. */
module ReplayLaws {
  import opened Json
  import opened Prefix
  import opened Accounting
  import opened Replay

  // ----- Prefix stability -----

  /** Every request starts with all of the request before it. */
  ghost predicate Growing(reqs: seq<Request>) {
    forall k :: 0 < k < |reqs| ==> reqs[k - 1].forwarded <= reqs[k].forwarded
  }

  /** Delta replay keeps the whole previous exchange as it was sent, whatever the pipeline does. */
  lemma {:induction false} CacheModeKeepsExchange(cfg: Settings, mode: Mode, turns: seq<ReplayTurn>, k: nat)
    requires !mode.Token? && 0 < k < |turns|
    ensures var reqs := Requests(cfg, mode, turns);
            reqs[k - 1].forwarded + [turns[k - 1].assistant] <= reqs[k].forwarded
  {
    RequestAt(cfg, mode, turns, k);
    RequestAt(cfg, mode, turns, k - 1);
    var last := Requests(cfg, mode, turns)[k - 1];
    assert (last.Answered() + turns[k].inputs)[..|last.Answered()|] == last.Answered();
    if mode.Baseline? {
      assert last.forwarded == last.original;
    }
  }

  lemma {:induction false} ReplayedModesGrow(cfg: Settings, mode: Mode, turns: seq<ReplayTurn>)
    requires !mode.Token?
    ensures Growing(Requests(cfg, mode, turns))
  {
    var reqs := Requests(cfg, mode, turns);
    forall k | 0 < k < |reqs|
      ensures reqs[k - 1].forwarded <= reqs[k].forwarded
    {
      CacheModeKeepsExchange(cfg, mode, turns, k);
    }
  }

  /** A run has no busts exactly when every request sent in time extends its predecessor. */
  lemma {:induction false} NoBustsIff(cfg: Settings, reqs: seq<Request>, n: nat)
    requires n <= |reqs|
    ensures CacheUpTo(cfg, reqs, n).busts >= 0
    ensures CacheUpTo(cfg, reqs, n).busts == 0 <==>
            forall k :: 0 < k < n && Warm(cfg, Before(reqs, k), reqs[k].AsSent())
                        ==> reqs[k - 1].forwarded <= reqs[k].forwarded
  {
    if n > 0 {
      NoBustsIff(cfg, reqs, n - 1);
    }
  }

  /** The rewrite classifier, a turn ahead, agrees with the bust counter. */
  lemma {:induction false} RewritesWithinCache(cfg: Settings, reqs: seq<Request>, n: nat)
    requires n <= |reqs|
    ensures var cache, rewrites := CacheUpTo(cfg, reqs, n), RewritesUpTo(cfg, reqs, n);
            0 <= rewrites.busting <= cache.busts && rewrites.stable + cache.busts <= cache.eligible
  {
    if n > 0 {
      RewritesWithinCache(cfg, reqs, n - 1);
    }
  }

  /** The central safety claim: for every session and every pipeline, no turn of a cache-mode run busts. */
  lemma {:induction false} CacheModeNeverBusts(cfg: Settings, pipeline: Pipeline, turns: seq<ReplayTurn>)
    ensures var total := SessionTotals(cfg, Requests(cfg, Cache(pipeline), turns));
            total.cache.busts == 0 && total.rewrites.busting == 0
  {
    var reqs := Requests(cfg, Cache(pipeline), turns);
    ReplayedModesGrow(cfg, Cache(pipeline), turns);
    NoBustsIff(cfg, reqs, |reqs|);
    RewritesWithinCache(cfg, reqs, |reqs|);
  }

  // ----- Accounting identities -----

  /** Laws of the counters that survive merging. */
  ghost predicate Lawful(t: Totals) {
    && t.tokens.read + t.tokens.write + t.tokens.regular == t.tokens.forwarded
    && 0 <= t.tokens.read && 0 <= t.tokens.write && 0 <= t.tokens.regular
    && t.cache.eligible + t.cache.expired + t.sessions == t.requests
    && t.rewrites.all == t.rewrites.retroactive + t.rewrites.latestOnly
    && t.rewrites.all == t.rewrites.stable + t.rewrites.busting + t.rewrites.nonEligible
    && t.rewrites.busting <= t.cache.busts
    && t.rewrites.stable + t.cache.busts <= t.cache.eligible
  }

  lemma {:induction false} TokensConserved(cfg: Settings, reqs: seq<Request>, n: nat)
    requires n <= |reqs|
    ensures var t := TokensUpTo(cfg, reqs, n);
            t.read + t.write + t.regular == t.forwarded && 0 <= t.read && 0 <= t.write && 0 <= t.regular
  {
    if n > 0 {
      TokensConserved(cfg, reqs, n - 1);
      var k := n - 1;
      SplitFits(cfg, TokenizerFor(cfg, reqs[k].turn.model), Before(reqs, k), reqs[k].AsSent(), After(reqs, k));
    }
  }

  lemma {:induction false} TurnsAccounted(cfg: Settings, reqs: seq<Request>, n: nat)
    requires n <= |reqs|
    ensures var c := CacheUpTo(cfg, reqs, n); c.eligible + c.expired == Max(n - 1, 0)
  {
    if n > 0 {
      TurnsAccounted(cfg, reqs, n - 1);
    }
  }

  lemma {:induction false} RewritesAccounted(cfg: Settings, reqs: seq<Request>, n: nat)
    requires n <= |reqs|
    ensures var r := RewritesUpTo(cfg, reqs, n);
            r.all == r.retroactive + r.latestOnly == r.stable + r.busting + r.nonEligible
  {
    if n > 0 {
      RewritesAccounted(cfg, reqs, n - 1);
    }
  }

  /** A finished session obeys all the laws exactly when it has a turn. */
  lemma {:induction false} SessionLawful(cfg: Settings, reqs: seq<Request>)
    ensures Lawful(SessionTotals(cfg, reqs)) <==> reqs != []
  {
    TokensConserved(cfg, reqs, |reqs|);
    TurnsAccounted(cfg, reqs, |reqs|);
    RewritesAccounted(cfg, reqs, |reqs|);
    RewritesWithinCache(cfg, reqs, |reqs|);
  }

  function MergeAll(parts: seq<Totals>): Totals {
    if parts == [] then ZERO else MergeAll(parts[..|parts| - 1]).Plus(parts[|parts| - 1])
  }

  /** Merging any number of lawful summaries gives a lawful one. */
  lemma {:induction false} MergedLawful(parts: seq<Totals>)
    requires forall i :: 0 <= i < |parts| ==> Lawful(parts[i])
    ensures Lawful(MergeAll(parts))
  {
    if parts != [] {
      MergedLawful(parts[..|parts| - 1]);
    }
  }

  // ----- Single-model sessions -----

  ghost predicate SingleModel(reqs: seq<Request>, model: string) {
    forall k :: 0 <= k < |reqs| ==> reqs[k].turn.model == model
  }

  /** What a turn writes ahead, the next turn reads back. */
  lemma {:induction false} WriteIsReadBack(cfg: Settings, reqs: seq<Request>, model: string, k: nat)
    requires SingleModel(reqs, model) && k + 1 < |reqs|
    ensures TokensAt(cfg, reqs, k).write <= TokensAt(cfg, reqs, k + 1).read
  {
    var a, b := reqs[k].forwarded, reqs[k + 1].forwarded;
    assert a[..CommonLen(a, b)] == b[..CommonLen(a, b)];
  }

  lemma {:induction false} WritesCovered(cfg: Settings, reqs: seq<Request>, model: string, n: nat)
    requires SingleModel(reqs, model) && n < |reqs|
    ensures TokensUpTo(cfg, reqs, n).write <= TokensUpTo(cfg, reqs, n + 1).read
  {
    if n > 0 {
      WritesCovered(cfg, reqs, model, n - 1);
      WriteIsReadBack(cfg, reqs, model, n - 1);
    }
  }

  /** For any forwarded sequence whatever, a session never writes more than it reads. */
  lemma {:induction false} WritesAtMostReads(cfg: Settings, reqs: seq<Request>, model: string)
    requires SingleModel(reqs, model)
    ensures SessionTotals(cfg, reqs).tokens.write <= SessionTotals(cfg, reqs).tokens.read
  {
    if reqs != [] {
      WritesCovered(cfg, reqs, model, |reqs| - 1);
    }
  }

  lemma CostDistributes(a: int, b: int, rate: real)
    ensures AtRate(a + b, rate) == AtRate(a, rate) + AtRate(b, rate)
  {
  }

  lemma {:induction false} BilledPlus(rates: Rates, a: TokenCounts, b: TokenCounts)
    ensures Billed(rates, a).Plus(Billed(rates, b)) == Billed(rates, a.Plus(b))
  {
    hide AtRate;
    CostDistributes(a.regular, b.regular, rates.input);
    CostDistributes(a.read, b.read, rates.cacheRead);
    CostDistributes(a.write, b.write, rates.cacheWrite);
    CostDistributes(a.output, b.output, rates.output);
  }

  /** With one model, summing costs and pricing the summed tokens are the same. */
  lemma {:induction false} CostsFactor(cfg: Settings, reqs: seq<Request>, model: string, n: nat)
    requires SingleModel(reqs, model) && n <= |reqs|
    ensures CostsUpTo(cfg, reqs, n) == Billed(ResolveRates(cfg, model), TokensUpTo(cfg, reqs, n))
  {
    if n > 0 {
      hide AtRate;
      hide ResolveRates;
      CostsFactor(cfg, reqs, model, n - 1);
      BilledPlus(ResolveRates(cfg, model), TokensUpTo(cfg, reqs, n - 1), TokensAt(cfg, reqs, n - 1));
    }
  }

  /** The price of sending everything uncached. */
  function UncachedCost(rates: Rates, t: TokenCounts): real {
    AtRate(t.forwarded, rates.input) + AtRate(t.output, rates.output)
  }

  lemma CacheRates(cfg: Settings, model: string)
    ensures var r := ResolveRates(cfg, model);
            r.cacheRead == 0.1 * r.input && r.cacheWrite == cfg.writeMultiplier * r.input
  {
  }

  /** A model without a listed price is in one of three tiers, each charging five times the input rate for output. */
  lemma FallbackRates(cfg: Settings, model: string)
    requires cfg.pricing(model).None?
    ensures var r := ResolveRates(cfg, model);
            0.0 < r.input && r.output == 5.0 * r.input &&
            r.input * 1000000.0 ==
            if Contains(model, "opus") then 15.0 else if Contains(model, "haiku") then 1.0 else 3.0
  {
  }

  /** The model's listed input price, if it has one, is not negative. */
  predicate NoNegativePrice(cfg: Settings, model: string) {
    cfg.pricing(model).None? || 0.0 <= cfg.pricing(model).value.inputPer1M
  }

  /** The model's listed input price, if it has one, is positive. */
  predicate ChargesInput(cfg: Settings, model: string) {
    cfg.pricing(model).None? || 0.0 < cfg.pricing(model).value.inputPer1M
  }

  /** The input rate has the sign of the listed price, and the fallback rates are positive. */
  lemma InputRateSign(cfg: Settings, model: string)
    ensures 0.0 <= ResolveRates(cfg, model).input <==> NoNegativePrice(cfg, model)
    ensures 0.0 < ResolveRates(cfg, model).input <==> ChargesInput(cfg, model)
  {
    if cfg.pricing(model).None? {
      FallbackRates(cfg, model);
    }
  }

  lemma {:induction false} CachingPays(rates: Rates, m: real, t: TokenCounts)
    requires rates.cacheRead == 0.1 * rates.input && rates.cacheWrite == m * rates.input
    requires 0.0 <= rates.input && m <= 1.9
    requires 0 <= t.write <= t.read && t.read + t.write + t.regular == t.forwarded
    ensures Billed(rates, t).total <= UncachedCost(rates, t)
  {
    var r, w, g := t.read as real, t.write as real, t.regular as real;
    assert t.forwarded as real == r + w + g;
    assert m * w <= 1.9 * w;
    assert 0.1 * r + m * w <= r + w;
    Scale(rates.input, 0.1 * r + m * w, r + w);
    assert r * rates.cacheRead + w * rates.cacheWrite == rates.input * (0.1 * r + m * w);
    assert (r + w + g) * rates.input == rates.input * (r + w) + g * rates.input;
  }

  lemma Scale(c: real, x: real, y: real)
    requires 0.0 <= c && x <= y
    ensures c * x <= c * y
  {
  }

  /** A session priced with a write multiplier up to 1.9 never costs more than sending everything uncached. */
  lemma {:induction false} CachingNeverCostsMore(cfg: Settings, reqs: seq<Request>, model: string)
    requires SingleModel(reqs, model)
    requires cfg.writeMultiplier <= 1.9 && NoNegativePrice(cfg, model)
    ensures CachingWorthIt(cfg, reqs, model)
  {
    hide Billed;
    hide UncachedCost;
    hide ResolveRates;
    hide TokensUpTo;
    hide CostsUpTo;
    TokensConserved(cfg, reqs, |reqs|);
    WritesAtMostReads(cfg, reqs, model);
    CostsFactor(cfg, reqs, model, |reqs|);
    CacheRates(cfg, model);
    InputRateSign(cfg, model);
    CachingPays(ResolveRates(cfg, model), cfg.writeMultiplier, SessionTotals(cfg, reqs).tokens);
  }

  // ----- Telescoping -----

  /** Turn `k` comes within the time to live of the turn before it. */
  predicate WarmAt(cfg: Settings, reqs: seq<Request>, k: nat)
    requires k < |reqs|
  {
    Warm(cfg, Before(reqs, k), reqs[k].AsSent())
  }

  ghost predicate AllWarm(cfg: Settings, reqs: seq<Request>) {
    forall k :: 0 < k < |reqs| ==> WarmAt(cfg, reqs, k)
  }

  /** Tokens of the request before turn `n`, none before the first. */
  function SentBefore(t: Tokenizer, reqs: seq<Request>, n: nat): nat
    requires n <= |reqs|
  {
    if n == 0 then 0 else Tokens(t, reqs[n - 1].forwarded)
  }

  /**
    In a growing session a warm turn reads its whole predecessor and a cold one
    nothing, and a turn that is followed in time writes all that it did not read.
   */
  lemma {:induction false} GrowingSplit(cfg: Settings, reqs: seq<Request>, model: string, k: nat)
    requires Growing(reqs) && SingleModel(reqs, model) && k < |reqs|
    ensures var t, counts := TokenizerFor(cfg, model), TokensAt(cfg, reqs, k);
            && counts.read == (if WarmAt(cfg, reqs, k) then SentBefore(t, reqs, k) else 0)
            && counts.write == (if k + 1 < |reqs| && WarmAt(cfg, reqs, k + 1)
                                then Tokens(t, reqs[k].forwarded) - counts.read else 0)
            && counts.regular == CountMessages(t, reqs[k].forwarded) - counts.read - counts.write
  {
    hide CommonLen;
    var t := TokenizerFor(cfg, model);
    var f := reqs[k].forwarded;
    if k > 0 {
      var p := reqs[k - 1].forwarded;
      CommonLenFull(p, f);
      assert f[..|p|] == p;
      TokensMonotone(t, p, f);
    }
    if k + 1 < |reqs| {
      CommonLenFull(f, reqs[k + 1].forwarded);
      assert f[..|f|] == f;
    }
  }

  lemma Multiples(n: nat, o: nat)
    ensures n * o + o == (n + 1) * o
    ensures n * o == 0 <==> n == 0 || o == 0
  {
  }

  /** What has to be sent again because it expired: the predecessors of the cold ones among the first `n` turns. */
  function Resent(cfg: Settings, t: Tokenizer, reqs: seq<Request>, n: nat): nat
    requires n <= |reqs|
  {
    if n == 0 then 0
    else Resent(cfg, t, reqs, n - 1) + if WarmAt(cfg, reqs, n - 1) then 0 else SentBefore(t, reqs, n - 1)
  }

  /** What a growing session has written or paid for is its latest request, the overheads, and what expired. */
  lemma {:induction false} GrowingTelescopes(cfg: Settings, reqs: seq<Request>, model: string, n: nat)
    requires Growing(reqs) && SingleModel(reqs, model) && n <= |reqs|
    ensures var t, total := TokenizerFor(cfg, model), TokensUpTo(cfg, reqs, n);
            total.write + total.regular == SentBefore(t, reqs, n) + n * t.overhead + Resent(cfg, t, reqs, n)
  {
    hide TokensAt;
    hide WarmAt;
    if n > 0 {
      GrowingTelescopes(cfg, reqs, model, n - 1);
      GrowingSplit(cfg, reqs, model, n - 1);
      Multiples(n - 1, TokenizerFor(cfg, model).overhead);
    }
  }

  /** In cache mode and in baseline, with gaps of any length. */
  lemma {:induction false} ReplayTelescopes(cfg: Settings, mode: Mode, turns: seq<ReplayTurn>, model: string)
    requires !mode.Token? && turns != [] && OneModel(turns, model)
    ensures var reqs, t := Requests(cfg, mode, turns), TokenizerFor(cfg, model);
            var total, final := SessionTotals(cfg, reqs).tokens, reqs[|reqs| - 1].forwarded;
            var resent := Resent(cfg, t, reqs, |reqs|);
            && (forall k :: 0 <= k < |reqs| - 1 && WarmAt(cfg, reqs, k + 1)
                            ==> TokensAt(cfg, reqs, k).regular == t.overhead)
            && total.write + total.regular == Tokens(t, final) + |turns| * t.overhead + resent
            && (total.write + total.regular == CountMessages(t, final) <==>
                resent == 0 && (|turns| == 1 || t.overhead == 0))
  {
    hide TokensAt;
    hide WarmAt;
    hide Requests;
    hide Resent;
    var reqs, t := Requests(cfg, mode, turns), TokenizerFor(cfg, model);
    ReplayedModesGrow(cfg, mode, turns);
    OneModelRequests(cfg, mode, turns, model);
    forall k | 0 <= k < |reqs| - 1 && WarmAt(cfg, reqs, k + 1)
      ensures TokensAt(cfg, reqs, k).regular == t.overhead
    {
      GrowingSplit(cfg, reqs, model, k);
    }
    GrowingTelescopes(cfg, reqs, model, |reqs|);
    Multiples(|reqs| - 1, t.overhead);
  }

  /** A session on one model whose every gap is within the time to live. */
  ghost predicate WarmSession(cfg: Settings, turns: seq<ReplayTurn>, model: string) {
    && OneModel(turns, model)
    && (forall k :: 0 < k < |turns| ==> turns[k].timestamp - turns[k - 1].timestamp <= cfg.ttl)
  }

  lemma {:induction false} WarmRequests(cfg: Settings, mode: Mode, turns: seq<ReplayTurn>, model: string)
    requires WarmSession(cfg, turns, model)
    ensures var reqs := Requests(cfg, mode, turns); AllWarm(cfg, reqs) && SingleModel(reqs, model)
  {
    forall k | 0 <= k < |turns|
      ensures Requests(cfg, mode, turns)[k].turn == turns[k]
    {
      RequestAt(cfg, mode, turns, k);
    }
  }

  lemma {:induction false} WarmResendsNothing(cfg: Settings, t: Tokenizer, reqs: seq<Request>, n: nat)
    requires AllWarm(cfg, reqs) && n <= |reqs|
    ensures Resent(cfg, t, reqs, n) == 0
  {
    hide WarmAt;
    if n > 0 {
      WarmResendsNothing(cfg, t, reqs, n - 1);
    }
  }

  /**
    If no gap is too long, every turn but the last pays the regular rate for nothing but the tokenizer's
    fixed overhead, and what the session writes or pays for adds up to its final request.
   */
  lemma {:induction false} CacheModeTelescopes(cfg: Settings, mode: Mode, turns: seq<ReplayTurn>, model: string)
    requires !mode.Token? && turns != [] && WarmSession(cfg, turns, model)
    ensures var reqs, t := Requests(cfg, mode, turns), TokenizerFor(cfg, model);
            var total, final := SessionTotals(cfg, reqs).tokens, reqs[|reqs| - 1].forwarded;
            && (forall k :: 0 <= k < |reqs| - 1 ==> TokensAt(cfg, reqs, k).regular == t.overhead)
            && total.write + total.regular == Tokens(t, final) + |turns| * t.overhead
            && (total.write + total.regular == CountMessages(t, final) <==> |turns| == 1 || t.overhead == 0)
  {
    hide TokensAt;
    hide WarmAt;
    hide TokensUpTo;
    hide Requests;
    WarmRequests(cfg, mode, turns, model);
    ReplayTelescopes(cfg, mode, turns, model);
    WarmResendsNothing(cfg, TokenizerFor(cfg, model), Requests(cfg, mode, turns), |turns|);
  }

  ghost predicate CachingWorthIt(cfg: Settings, reqs: seq<Request>, model: string) {
    WorthCaching(ResolveRates(cfg, model), SessionTotals(cfg, reqs))
  }

  /** Every turn is answered by one model. */
  ghost predicate OneModel(turns: seq<ReplayTurn>, model: string) {
    forall k :: 0 <= k < |turns| ==> turns[k].model == model
  }

  lemma {:induction false} OneModelRequests(cfg: Settings, mode: Mode, turns: seq<ReplayTurn>, model: string)
    requires OneModel(turns, model)
    ensures SingleModel(Requests(cfg, mode, turns), model)
  {
    forall k | 0 <= k < |turns|
      ensures Requests(cfg, mode, turns)[k].turn == turns[k]
    {
      RequestAt(cfg, mode, turns, k);
    }
  }

  /** A message, its answer, and a second answer just within the time to live with nothing said in between. */
  function TwoAnswers(cfg: Settings, model: string, msg: Message): seq<ReplayTurn> {
    [ReplayTurn("", model, 0, [msg], msg, 0, 0, 0, 0), ReplayTurn("", model, cfg.ttl, [], msg, 0, 0, 0, 0)]
  }

  lemma {:induction false} TwoAnswersForward(cfg: Settings, mode: Mode, model: string, msg: Message)
    requires !mode.Token?
    ensures var reqs := Requests(cfg, mode, TwoAnswers(cfg, model, msg));
            reqs[0].forwarded == [msg] && reqs[1].forwarded == [msg, msg]
  {
    var turns := TwoAnswers(cfg, model, msg);
    RequestAt(cfg, mode, turns, 0);
    RequestAt(cfg, mode, turns, 1);
    var first := Requests(cfg, mode, turns)[0];
    assert first.original == [] + [msg] == [msg];
    assert first.Answered() + [] == first.Answered();
  }

  /** Its first request writes what the second reads. */
  lemma {:induction false} TwoAnswersSplit(cfg: Settings, mode: Mode, model: string, msg: Message)
    requires !mode.Token?
    ensures var t := SessionTotals(cfg, Requests(cfg, mode, TwoAnswers(cfg, model, msg))).tokens;
            t.read == t.write == CountMessage(TokenizerFor(cfg, model), msg)
  {
    hide TokensAt;
    hide NextRequest;
    var turns := TwoAnswers(cfg, model, msg);
    var reqs := Requests(cfg, mode, turns);
    TwoAnswersForward(cfg, mode, model, msg);
    ReplayedModesGrow(cfg, mode, turns);
    WarmRequests(cfg, mode, turns, model);
    assert Tokens(TokenizerFor(cfg, model), [msg]) == CountMessage(TokenizerFor(cfg, model), msg);
    GrowingSplit(cfg, reqs, model, 0);
    GrowingSplit(cfg, reqs, model, 1);
    assert TokensUpTo(cfg, reqs, 1) == NO_TOKENS.Plus(TokensAt(cfg, reqs, 0));
  }

  /** With the repository's overhead of 3, two answers already pay three tokens more than their final request has. */
  lemma {:induction false} OverheadPaidTwice(cfg: Settings, mode: Mode, model: string, msg: Message)
    requires !mode.Token? && TokenizerFor(cfg, model).overhead == 3
    ensures var turns, t := TwoAnswers(cfg, model, msg), TokenizerFor(cfg, model);
            var total := SessionTotals(cfg, Requests(cfg, mode, turns)).tokens;
            WarmSession(cfg, turns, model) && total.write + total.regular == CountMessages(t, [msg, msg]) + 3
  {
    hide TokensUpTo;
    hide NextRequest;
    TwoAnswersForward(cfg, mode, model, msg);
    CacheModeTelescopes(cfg, mode, TwoAnswers(cfg, model, msg), model);
  }

  lemma {:induction false} CachingLoses(rates: Rates, m: real, t: TokenCounts)
    requires rates.cacheRead == 0.1 * rates.input && rates.cacheWrite == m * rates.input
    requires 0.0 < rates.input && 1.9 < m
    requires 0 < t.write == t.read && t.read + t.write + t.regular == t.forwarded
    ensures Billed(rates, t).total > UncachedCost(rates, t)
  {
    var c, g := t.read as real, t.regular as real;
    assert t.forwarded as real == c + c + g;
    assert m * c > 1.9 * c;
    var gain := 0.1 * c + m * c - (c + c);
    assert rates.input * gain > 0.0;
    assert rates.input * gain == rates.input * (0.1 * c + m * c) - rates.input * (c + c);
    assert c * rates.cacheRead + c * rates.cacheWrite == rates.input * (0.1 * c + m * c);
    assert (c + c + g) * rates.input == rates.input * (c + c) + g * rates.input;
  }

  lemma {:induction false} TwoAnswersLose(cfg: Settings, mode: Mode, model: string, msg: Message)
    requires !mode.Token? && ChargesInput(cfg, model) && 0 < CountMessage(TokenizerFor(cfg, model), msg)
    requires 1.9 < cfg.writeMultiplier
    ensures !CachingWorthIt(cfg, Requests(cfg, mode, TwoAnswers(cfg, model, msg)), model)
  {
    hide Billed;
    hide UncachedCost;
    hide ResolveRates;
    hide TokensUpTo;
    hide CostsUpTo;
    hide Requests;
    var turns := TwoAnswers(cfg, model, msg);
    var reqs := Requests(cfg, mode, turns);
    OneModelRequests(cfg, mode, turns, model);
    TwoAnswersSplit(cfg, mode, model, msg);
    TokensConserved(cfg, reqs, |reqs|);
    CostsFactor(cfg, reqs, model, |reqs|);
    CacheRates(cfg, model);
    InputRateSign(cfg, model);
    CachingLoses(ResolveRates(cfg, model), cfg.writeMultiplier, SessionTotals(cfg, reqs).tokens);
  }

  /**
    The bound 1.9 is exact: in baseline, and in cache mode with any pipeline, it is
    the largest multiplier at which no one-model session loses by caching.
   */
  lemma {:induction false} WriteMultiplierBound(cfg: Settings, mode: Mode, model: string, msg: Message)
    requires !mode.Token? && ChargesInput(cfg, model) && 0 < CountMessage(TokenizerFor(cfg, model), msg)
    ensures (forall turns :: OneModel(turns, model) ==> CachingWorthIt(cfg, Requests(cfg, mode, turns), model))
            <==> cfg.writeMultiplier <= 1.9
  {
    hide CachingWorthIt;
    hide Requests;
    if cfg.writeMultiplier <= 1.9 {
      forall turns | OneModel(turns, model)
        ensures CachingWorthIt(cfg, Requests(cfg, mode, turns), model)
      {
        OneModelRequests(cfg, mode, turns, model);
        CachingNeverCostsMore(cfg, Requests(cfg, mode, turns), model);
      }
    } else {
      TwoAnswersLose(cfg, mode, model, msg);
      assert OneModel(TwoAnswers(cfg, model, msg), model);
    }
  }

  // ----- The no-cache figure -----

  function WrittenAtInputRate(cfg: Settings, reqs: seq<Request>, n: nat): real
    requires n <= |reqs|
  {
    if n == 0 then 0.0
    else WrittenAtInputRate(cfg, reqs, n - 1)
         + AtRate(TokensAt(cfg, reqs, n - 1).write, ResolveRates(cfg, reqs[n - 1].turn.model).input)
  }

  function ForwardedAtInputRate(cfg: Settings, reqs: seq<Request>, n: nat): real
    requires n <= |reqs|
  {
    if n == 0 then 0.0
    else ForwardedAtInputRate(cfg, reqs, n - 1)
         + AtRate(TokensAt(cfg, reqs, n - 1).forwarded, ResolveRates(cfg, reqs[n - 1].turn.model).input)
  }

  lemma {:induction false} BilledNoCache(cfg: Settings, model: string, t: TokenCounts)
    requires t.read + t.write + t.regular == t.forwarded
    ensures var r := ResolveRates(cfg, model);
            Billed(r, t).NoCacheTotal() + AtRate(t.write, r.input)
            == AtRate(t.forwarded, r.input) + Billed(r, t).paidOutput
  {
    CacheRates(cfg, model);
    var r := ResolveRates(cfg, model);
    CostDistributes(t.read + t.write, t.regular, r.input);
    CostDistributes(t.read, t.write, r.input);
    assert AtRate(t.read, r.cacheRead) * 10.0 == AtRate(t.read, r.input);
  }

  lemma {:induction false} TurnNoCache(cfg: Settings, reqs: seq<Request>, k: nat)
    requires k < |reqs|
    ensures var rate := ResolveRates(cfg, reqs[k].turn.model).input;
            CostsAt(cfg, reqs, k).NoCacheTotal() + AtRate(TokensAt(cfg, reqs, k).write, rate)
            == AtRate(TokensAt(cfg, reqs, k).forwarded, rate) + CostsAt(cfg, reqs, k).paidOutput
  {
    hide AtRate;
    hide ResolveRates;
    hide Billed;
    hide ReadTokens;
    hide WriteTokens;
    BilledNoCache(cfg, reqs[k].turn.model, TokensAt(cfg, reqs, k));
  }

  lemma NoCachePlus(a: Costs, b: Costs)
    ensures a.Plus(b).NoCacheTotal() == a.NoCacheTotal() + b.NoCacheTotal()
    ensures NO_COSTS.NoCacheTotal() == 0.0
  {
  }

  /** The no-cache total leaves out exactly the written tokens, whatever mix of models a session uses. */
  lemma {:induction false} NoCacheOmitsWrites(cfg: Settings, reqs: seq<Request>, n: nat)
    requires n <= |reqs|
    ensures CostsUpTo(cfg, reqs, n).NoCacheTotal() + WrittenAtInputRate(cfg, reqs, n)
            == ForwardedAtInputRate(cfg, reqs, n) + CostsUpTo(cfg, reqs, n).paidOutput
  {
    hide AtRate;
    hide ResolveRates;
    hide TokensAt;
    hide CostsAt;
    hide Costs.NoCacheTotal;
    if n > 0 {
      NoCacheOmitsWrites(cfg, reqs, n - 1);
      TurnNoCache(cfg, reqs, n - 1);
      NoCachePlus(CostsUpTo(cfg, reqs, n - 1), CostsAt(cfg, reqs, n - 1));
    } else {
      NoCachePlus(NO_COSTS, NO_COSTS);
    }
  }

  /** What holds of one model's summaries at any prices: the no-cache identity, and writes covered by reads. */
  ghost predicate PricedLawful(rates: Rates, t: Totals) {
    && t.costs.NoCacheTotal() + AtRate(t.tokens.write, rates.input)
       == AtRate(t.tokens.forwarded, rates.input) + t.costs.paidOutput
    && t.tokens.write <= t.tokens.read
  }

  lemma {:induction false} SessionPricedLawful(cfg: Settings, reqs: seq<Request>, model: string)
    requires SingleModel(reqs, model)
    ensures PricedLawful(ResolveRates(cfg, model), SessionTotals(cfg, reqs))
  {
    hide AtRate;
    hide ResolveRates;
    TokensConserved(cfg, reqs, |reqs|);
    WritesAtMostReads(cfg, reqs, model);
    CostsFactor(cfg, reqs, model, |reqs|);
    BilledNoCache(cfg, model, SessionTotals(cfg, reqs).tokens);
  }

  lemma {:induction false} MergedPricedLawful(rates: Rates, parts: seq<Totals>)
    requires forall i :: 0 <= i < |parts| ==> PricedLawful(rates, parts[i])
    ensures PricedLawful(rates, MergeAll(parts))
  {
    if parts != [] {
      hide AtRate;
      var front, last := MergeAll(parts[..|parts| - 1]), parts[|parts| - 1];
      MergedPricedLawful(rates, parts[..|parts| - 1]);
      CostDistributes(front.tokens.write, last.tokens.write, rates.input);
      CostDistributes(front.tokens.forwarded, last.tokens.forwarded, rates.input);
    }
  }

  /** The summary costs no more than sending its tokens uncached would. */
  ghost predicate WorthCaching(rates: Rates, t: Totals) {
    t.costs.total <= UncachedCost(rates, t.tokens)
  }

  lemma {:induction false} MergedWorthCaching(rates: Rates, parts: seq<Totals>)
    requires forall i :: 0 <= i < |parts| ==> WorthCaching(rates, parts[i])
    ensures WorthCaching(rates, MergeAll(parts))
  {
    if parts != [] {
      hide AtRate;
      var front, last := MergeAll(parts[..|parts| - 1]), parts[|parts| - 1];
      MergedWorthCaching(rates, parts[..|parts| - 1]);
      CostDistributes(front.tokens.forwarded, last.tokens.forwarded, rates.input);
      CostDistributes(front.tokens.output, last.tokens.output, rates.output);
    }
  }

  // ----- The write multiplier -----

  /** The same settings with another write multiplier. */
  function WithMultiplier(cfg: Settings, m: real): Settings { cfg.(writeMultiplier := m) }

  lemma MultiplierKeepsRequest(cfg: Settings, m: real, mode: Mode, last: Option<Request>, history: seq<ReplayTurn>)
    requires history != []
    ensures NextRequest(WithMultiplier(cfg, m), mode, last, history) == NextRequest(cfg, mode, last, history)
  {
    hide ApplyMode;
  }

  lemma {:induction false} MultiplierKeepsRequests(cfg: Settings, m: real, mode: Mode, turns: seq<ReplayTurn>)
    ensures Requests(WithMultiplier(cfg, m), mode, turns) == Requests(cfg, mode, turns)
  {
    hide NextRequest;
    if turns != [] {
      var front := turns[..|turns| - 1];
      MultiplierKeepsRequests(cfg, m, mode, front);
      MultiplierKeepsRequest(cfg, m, mode, LastBefore(Requests(cfg, mode, front), |front|), turns);
    }
  }

  lemma {:induction false} MultiplierKeepsTurn(cfg: Settings, m: real, reqs: seq<Request>, k: nat)
    requires k < |reqs|
    ensures var other := WithMultiplier(cfg, m);
            && TokensAt(other, reqs, k) == TokensAt(cfg, reqs, k)
            && CacheAt(other, reqs, k) == CacheAt(cfg, reqs, k)
            && RewritesAt(other, reqs, k) == RewritesAt(cfg, reqs, k)
  {
  }

  lemma {:induction false} MultiplierKeepsCounts(cfg: Settings, m: real, reqs: seq<Request>, n: nat)
    requires n <= |reqs|
    ensures var other := WithMultiplier(cfg, m);
            && TokensUpTo(other, reqs, n) == TokensUpTo(cfg, reqs, n)
            && CacheUpTo(other, reqs, n) == CacheUpTo(cfg, reqs, n)
            && RewritesUpTo(other, reqs, n) == RewritesUpTo(cfg, reqs, n)
  {
    hide TokensAt;
    hide CacheAt;
    hide RewritesAt;
    if n > 0 {
      MultiplierKeepsCounts(cfg, m, reqs, n - 1);
      MultiplierKeepsTurn(cfg, m, reqs, n - 1);
    }
  }

  /** What the costs are at multiplier `m`, given those of nothing written and the written tokens at the input rate. */
  function CostsAtMultiplier(unwritten: Costs, written: real, m: real): Costs {
    unwritten.(cacheWrite := m * written, total := unwritten.total + m * written)
  }

  /** The costs with the cache writes taken out. */
  function Unwritten(c: Costs): Costs {
    c.(cacheWrite := 0.0, total := c.total - c.cacheWrite)
  }

  lemma {:induction false} BilledAtMultiplier(cfg: Settings, m: real, model: string, t: TokenCounts)
    ensures var other, rates := ResolveRates(WithMultiplier(cfg, m), model), ResolveRates(cfg, model);
            Billed(other, t) == CostsAtMultiplier(Unwritten(Billed(rates, t)), AtRate(t.write, rates.input), m)
  {
    CacheRates(cfg, model);
    CacheRates(WithMultiplier(cfg, m), model);
    var rate := ResolveRates(cfg, model).input;
    assert AtRate(t.write, m * rate) == m * AtRate(t.write, rate);
  }

  lemma CostsAtMultiplierPlus(a: Costs, x: real, b: Costs, y: real, m: real)
    ensures CostsAtMultiplier(a, x, m).Plus(CostsAtMultiplier(b, y, m)) == CostsAtMultiplier(a.Plus(b), x + y, m)
    ensures Unwritten(a).Plus(Unwritten(b)) == Unwritten(a.Plus(b))
    ensures CostsAtMultiplier(NO_COSTS, 0.0, m) == NO_COSTS == Unwritten(NO_COSTS)
  {
    assert m * (x + y) == m * x + m * y;
  }

  /** At any other multiplier the session costs what it did, but for the written tokens. */
  lemma {:induction false} CostsUpToAtMultiplier(cfg: Settings, m: real, reqs: seq<Request>, n: nat)
    requires n <= |reqs|
    ensures CostsUpTo(WithMultiplier(cfg, m), reqs, n)
            == CostsAtMultiplier(Unwritten(CostsUpTo(cfg, reqs, n)), WrittenAtInputRate(cfg, reqs, n), m)
  {
    hide TokensAt;
    hide ResolveRates;
    hide Billed;
    hide AtRate;
    hide CostsAtMultiplier;
    hide Unwritten;
    hide Costs.Plus;
    CostsAtMultiplierPlus(NO_COSTS, 0.0, NO_COSTS, 0.0, m);
    if n > 0 {
      var k := n - 1;
      CostsUpToAtMultiplier(cfg, m, reqs, k);
      MultiplierKeepsTurn(cfg, m, reqs, k);
      var model, t := reqs[k].turn.model, TokensAt(cfg, reqs, k);
      BilledAtMultiplier(cfg, m, model, t);
      var before, now := CostsUpTo(cfg, reqs, k), CostsAt(cfg, reqs, k);
      var written := AtRate(t.write, ResolveRates(cfg, model).input);
      CostsAtMultiplierPlus(Unwritten(before), WrittenAtInputRate(cfg, reqs, k), Unwritten(now), written, m);
      CostsAtMultiplierPlus(before, 0.0, now, 0.0, m);
    }
  }

  lemma SameCostsIff(c: Costs, written: real, m: real, n: real)
    ensures CostsAtMultiplier(c, written, m) == CostsAtMultiplier(c, written, n) <==> m == n || written == 0.0
  {
    assert m * written - n * written == (m - n) * written;
  }

  /** The turn writes nothing, or its model charges nothing for input. */
  predicate FreeWrites(cfg: Settings, reqs: seq<Request>, k: nat)
    requires k < |reqs|
  {
    TokensAt(cfg, reqs, k).write == 0 || ResolveRates(cfg, reqs[k].turn.model).input == 0.0
  }

  lemma WritesNotNegative(cfg: Settings, reqs: seq<Request>, k: nat)
    requires k < |reqs|
    ensures 0 <= TokensAt(cfg, reqs, k).write
  {
  }

  lemma FreeIff(tokens: nat, rate: real)
    requires 0.0 <= rate
    ensures AtRate(tokens, rate) >= 0.0
    ensures AtRate(tokens, rate) == 0.0 <==> tokens == 0 || rate == 0.0
  {
  }

  lemma {:induction false} AllFreeIff(cfg: Settings, reqs: seq<Request>, n: nat)
    requires n <= |reqs| && forall k :: 0 <= k < |reqs| ==> NoNegativePrice(cfg, reqs[k].turn.model)
    ensures WrittenAtInputRate(cfg, reqs, n) >= 0.0
    ensures WrittenAtInputRate(cfg, reqs, n) == 0.0 <==> forall k :: 0 <= k < n ==> FreeWrites(cfg, reqs, k)
  {
    hide TokensAt;
    hide ResolveRates;
    hide AtRate;
    hide NoNegativePrice;
    if n > 0 {
      var k := n - 1;
      AllFreeIff(cfg, reqs, k);
      InputRateSign(cfg, reqs[k].turn.model);
      WritesNotNegative(cfg, reqs, k);
      var cost := AtRate(TokensAt(cfg, reqs, k).write, ResolveRates(cfg, reqs[k].turn.model).input);
      FreeIff(TokensAt(cfg, reqs, k).write, ResolveRates(cfg, reqs[k].turn.model).input);
      assert cost == 0.0 <==> FreeWrites(cfg, reqs, k);
    }
  }

  /** Where input is charged for, two answers pay for what the first writes. */
  lemma {:induction false} TwoAnswersPay(cfg: Settings, mode: Mode, model: string, msg: Message)
    requires !mode.Token? && ChargesInput(cfg, model) && 0 < CountMessage(TokenizerFor(cfg, model), msg)
    ensures !FreeWrites(cfg, Requests(cfg, mode, TwoAnswers(cfg, model, msg)), 0)
  {
    hide Requests;
    hide TokensAt;
    hide ResolveRates;
    hide ChargesInput;
    var turns := TwoAnswers(cfg, model, msg);
    TwoAnswersForward(cfg, mode, model, msg);
    ReplayedModesGrow(cfg, mode, turns);
    WarmRequests(cfg, mode, turns, model);
    assert Tokens(TokenizerFor(cfg, model), [msg]) == CountMessage(TokenizerFor(cfg, model), msg);
    GrowingSplit(cfg, Requests(cfg, mode, turns), model, 0);
    InputRateSign(cfg, model);
  }

  /** Two multipliers give a session the same totals exactly when they are equal or no written token costs anything. */
  lemma {:induction false} MultiplierShowsIff(cfg: Settings, m: real, mode: Mode, turns: seq<ReplayTurn>)
    requires forall k :: 0 <= k < |turns| ==> NoNegativePrice(cfg, turns[k].model)
    ensures var reqs, other := Requests(cfg, mode, turns), WithMultiplier(cfg, m);
            SessionTotals(other, Requests(other, mode, turns)) == SessionTotals(cfg, reqs) <==>
            m == cfg.writeMultiplier || forall k :: 0 <= k < |reqs| ==> FreeWrites(cfg, reqs, k)
  {
    hide Requests;
    hide FreeWrites;
    hide NoNegativePrice;
    hide CostsAtMultiplier;
    hide CostsUpTo;
    hide TokensUpTo;
    hide CacheUpTo;
    hide RewritesUpTo;
    var reqs, n := Requests(cfg, mode, turns), |turns|;
    MultiplierKeepsRequests(cfg, m, mode, turns);
    MultiplierKeepsCounts(cfg, m, reqs, n);
    CostsUpToAtMultiplier(cfg, m, reqs, n);
    assert WithMultiplier(cfg, cfg.writeMultiplier) == cfg;
    CostsUpToAtMultiplier(cfg, cfg.writeMultiplier, reqs, n);
    SameCostsIff(Unwritten(CostsUpTo(cfg, reqs, n)), WrittenAtInputRate(cfg, reqs, n), m, cfg.writeMultiplier);
    forall k | 0 <= k < n
      ensures reqs[k].turn == turns[k]
    {
      RequestAt(cfg, mode, turns, k);
    }
    AllFreeIff(cfg, reqs, n);
  }
}
