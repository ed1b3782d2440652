/** Per-turn token and cost accounting, and the mutable summary it is added to. */
module Accounting {
  import opened Json
  import opened Prefix

  datatype ReplayTurn = ReplayTurn(
    requestId: string,
    model: string,
    timestamp: int,
    inputs: seq<Message>,
    assistant: Message,
    outputTokens: int,
    observedInput: int,
    observedCacheRead: int,
    observedCacheWrite: int)

  /** Prices in dollars per million tokens. */
  datatype Pricing = Pricing(inputPer1M: real, outputPer1M: real)

  /** Prices in dollars per token. */
  datatype Rates = Rates(input: real, output: real, cacheRead: real, cacheWrite: real)

  /** What a simulation is run with; tokenizers and prices come from outside. */
  datatype Settings = Settings(
    tokenizer: string -> Tokenizer,
    pricing: string -> Option<Pricing>,
    ttl: int,
    writeMultiplier: real)

  function TokenizerFor(cfg: Settings, model: string): Tokenizer { cfg.tokenizer(model) }

  /** `_resolve_model_rates`, with the fallback prices for unpriced models. */
  function ResolveRates(cfg: Settings, model: string): Rates {
    var p := match cfg.pricing(model)
      case Some(p) => p
      case None =>
        if Contains(model, "opus") then Pricing(15.0, 75.0)
        else if Contains(model, "haiku") then Pricing(1.0, 5.0)
        else Pricing(3.0, 15.0);
    Rates(p.inputPer1M / 1000000.0,
          p.outputPer1M / 1000000.0,
          p.inputPer1M * 0.10 / 1000000.0,
          p.inputPer1M * cfg.writeMultiplier / 1000000.0)
  }

  /** `_cache_gap_within_ttl`; a clock running backwards counts as within. */
  predicate WithinTtl(current: int, previous: Option<int>, ttl: int) {
    previous.Some? && current - previous.value <= ttl
  }

  /** A request as the provider's cache remembers it. */
  datatype Sent = Sent(forwarded: seq<Message>, timestamp: int)

  function SentAt(request: Option<Sent>): Option<int> {
    if request.None? then None else Some(request.value.timestamp)
  }

  /** The request comes soon enough after the one before it. */
  predicate Warm(cfg: Settings, prev: Option<Sent>, cur: Sent) {
    WithinTtl(cur.timestamp, SentAt(prev), cfg.ttl)
  }

  /** Tokens of `cur` that its predecessor already put in the cache. */
  function ReadTokens(cfg: Settings, t: Tokenizer, prev: Option<Sent>, cur: Sent): nat {
    if Warm(cfg, prev, cur) then
      Tokens(t, cur.forwarded[..CommonLen(prev.value.forwarded, cur.forwarded)])
    else 0
  }

  /** Tokens of `cur` written for its successor, beyond those it read itself. */
  function WriteTokens(cfg: Settings, t: Tokenizer, prev: Option<Sent>, cur: Sent, next: Option<Sent>): nat {
    if next.Some? && Warm(cfg, Some(cur), next.value) then
      Max(0, Tokens(t, cur.forwarded[..CommonLen(cur.forwarded, next.value.forwarded)])
             - ReadTokens(cfg, t, prev, cur))
    else 0
  }

  /** What is neither read nor written. Nothing is clipped at zero here. */
  function RegularTokens(cfg: Settings, t: Tokenizer, prev: Option<Sent>, cur: Sent, next: Option<Sent>): int {
    CountMessages(t, cur.forwarded) - ReadTokens(cfg, t, prev, cur) - WriteTokens(cfg, t, prev, cur, next)
  }

  /** An eligible request that does not start with its whole predecessor. */
  predicate Busts(cfg: Settings, prev: Option<Sent>, cur: Sent) {
    Warm(cfg, prev, cur) && !(prev.value.forwarded <= cur.forwarded)
  }

  /** Reads and writes fit in the request, so the regular part is never negative. */
  lemma {:induction false} SplitFits(cfg: Settings, t: Tokenizer, prev: Option<Sent>, cur: Sent, next: Option<Sent>)
    ensures ReadTokens(cfg, t, prev, cur) + WriteTokens(cfg, t, prev, cur, next) <= Tokens(t, cur.forwarded)
    ensures RegularTokens(cfg, t, prev, cur, next) >= t.overhead
  {
    var f := cur.forwarded;
    if prev.Some? {
      TokensMonotone(t, f[..CommonLen(prev.value.forwarded, f)], f);
    }
    if next.Some? {
      TokensMonotone(t, f[..CommonLen(f, next.value.forwarded)], f);
    }
  }

  datatype TokenCounts = TokenCounts(raw: int, forwarded: int, read: int, write: int, regular: int, output: int)
  {
    function Plus(o: TokenCounts): TokenCounts {
      TokenCounts(raw + o.raw, forwarded + o.forwarded, read + o.read, write + o.write, regular + o.regular,
                  output + o.output)
    }
  }

  datatype Costs = Costs(paidInput: real, cacheRead: real, cacheWrite: real, paidOutput: real, total: real)
  {
    function Plus(o: Costs): Costs {
      Costs(paidInput + o.paidInput, cacheRead + o.cacheRead, cacheWrite + o.cacheWrite, paidOutput + o.paidOutput,
            total + o.total)
    }

    /** `no_cache_total_cost_usd`. */
    function NoCacheTotal(): real {
      paidInput + cacheRead * 10.0 + paidOutput
    }
  }

  datatype CacheTurns = CacheTurns(eligible: int, busts: int, expired: int)
  {
    function Plus(o: CacheTurns): CacheTurns {
      CacheTurns(eligible + o.eligible, busts + o.busts, expired + o.expired)
    }
  }

  datatype RewriteTurns = RewriteTurns(
    all: int, stable: int, busting: int, nonEligible: int, retroactive: int, latestOnly: int)
  {
    function Plus(o: RewriteTurns): RewriteTurns {
      RewriteTurns(all + o.all, stable + o.stable, busting + o.busting, nonEligible + o.nonEligible,
                   retroactive + o.retroactive, latestOnly + o.latestOnly)
    }
  }

  /** The numbers of a `ModeSummary`, as a value. */
  datatype Totals = Totals(
    sessions: int, requests: int, tokens: TokenCounts, costs: Costs, cache: CacheTurns, rewrites: RewriteTurns)
  {
    function Plus(o: Totals): Totals {
      Totals(sessions + o.sessions, requests + o.requests, tokens.Plus(o.tokens), costs.Plus(o.costs),
             cache.Plus(o.cache), rewrites.Plus(o.rewrites))
    }
  }

  const NO_TOKENS := TokenCounts(0, 0, 0, 0, 0, 0)
  const NO_COSTS := Costs(0.0, 0.0, 0.0, 0.0, 0.0)
  const NO_CACHE := CacheTurns(0, 0, 0)
  const NO_REWRITES := RewriteTurns(0, 0, 0, 0, 0, 0)
  const ZERO := Totals(0, 0, NO_TOKENS, NO_COSTS, NO_CACHE, NO_REWRITES)

  lemma PlusLaws(a: Totals, b: Totals, c: Totals)
    ensures a.Plus(b).Plus(c) == a.Plus(b.Plus(c))
    ensures a.Plus(b) == b.Plus(a)
    ensures a.Plus(ZERO) == a
  {
  }

  /** How the cache found one request: eligible, busted, expired, or first. */
  function CacheState(cfg: Settings, prev: Option<Sent>, cur: Sent): CacheTurns {
    CacheTurns(if Warm(cfg, prev, cur) then 1 else 0,
               if Busts(cfg, prev, cur) then 1 else 0,
               if prev.Some? && !Warm(cfg, prev, cur) then 1 else 0)
  }

  function AtRate(tokens: int, rate: real): real { tokens as real * rate }

  /** What the tokens of one request cost. */
  function Billed(rates: Rates, tokens: TokenCounts): Costs {
    var paidInput := AtRate(tokens.regular, rates.input);
    var cacheRead := AtRate(tokens.read, rates.cacheRead);
    var cacheWrite := AtRate(tokens.write, rates.cacheWrite);
    var paidOutput := AtRate(tokens.output, rates.output);
    Costs(paidInput, cacheRead, cacheWrite, paidOutput, paidInput + cacheRead + cacheWrite + paidOutput)
  }

  /** How one request's tokens split, between the request before and the one after. */
  function TokensOf(cfg: Settings, turn: ReplayTurn, raw: nat, cur: Sent, prev: Option<Sent>, next: Option<Sent>):
      TokenCounts
  {
    var t := TokenizerFor(cfg, turn.model);
    TokenCounts(raw, CountMessages(t, cur.forwarded), ReadTokens(cfg, t, prev, cur),
                WriteTokens(cfg, t, prev, cur, next), RegularTokens(cfg, t, prev, cur, next), turn.outputTokens)
  }

  /**
    What one turn adds to the rewrite counters. `prior` messages of `original`
    were there before the turn's own input; a rewrite is retroactive when it
    does not keep them.
   */
  function RewriteOf(cfg: Settings, original: seq<Message>, prior: nat, cur: Sent, prev: Option<Sent>): RewriteTurns
  {
    if original == cur.forwarded then NO_REWRITES
    else
      var retro := !(original[..Min(prior, |original|)] <= cur.forwarded);
      var eligible := Warm(cfg, prev, cur) && prev.value.forwarded != [];
      var kept := eligible && prev.value.forwarded <= cur.forwarded;
      RewriteTurns(1,
                   if kept then 1 else 0,
                   if eligible && !kept then 1 else 0,
                   if eligible then 0 else 1,
                   if retro then 1 else 0,
                   if retro then 0 else 1)
  }

  /** `_rewrite_scope`: was the request rewritten, and did that reach back? */
  function RewriteScope(original: seq<Message>, forwarded: seq<Message>, stablePrefix: nat): (bool, bool) {
    if original == forwarded then (false, false)
    else
      var stable := Min(stablePrefix, Min(|original|, |forwarded|));
      (true,
       |forwarded| < stablePrefix || (stable > 0 && forwarded[..stable] != original[..stable]))
  }

  /**
    Reaching back means losing some of the messages that were there before. A
    count of such messages beyond the original's length, which the trace may
    pass, also makes every forwarded list shorter than the count reach back.
   */
  lemma {:induction false} RewriteScopeMeaning(original: seq<Message>, forwarded: seq<Message>, stablePrefix: nat)
    ensures RewriteScope(original, forwarded, stablePrefix)
            == (original != forwarded,
                original != forwarded && (|forwarded| < stablePrefix ||
                                          !(original[..Min(stablePrefix, |original|)] <= forwarded)))
    ensures stablePrefix <= |original| && |forwarded| < stablePrefix ==> !(original[..stablePrefix] <= forwarded)
  {
    if |forwarded| >= stablePrefix {
      var n := Min(stablePrefix, |original|);
      assert original[..n] <= forwarded <==> forwarded[..n] == original[..n];
    }
  }

  predicate PrefixPreserved(previous: seq<Message>, current: seq<Message>)
    ensures PrefixPreserved(previous, current) <==> previous <= current
  {
    |current| >= |previous| && current[..|previous|] == previous
  }

  /** The token split of `_apply_turn_metrics`; its `max(0, ...)` around the regular part never clips. */
  method SplitTokens(cfg: Settings, turn: ReplayTurn, raw: nat, forwarded: seq<Message>,
                     previousForwarded: seq<Message>, previousTimestamp: Option<int>,
                     next: Option<Sent>) returns (counts: TokenCounts)
    ensures counts == TokensOf(cfg, turn, raw, Sent(forwarded, turn.timestamp),
                               Previous(previousForwarded, previousTimestamp), next)
    ensures counts.read + counts.write + counts.regular == counts.forwarded
    ensures 0 <= counts.read && 0 <= counts.write && 0 <= counts.regular
  {
    hide Tokens;
    hide CommonLen;
    var t := TokenizerFor(cfg, turn.model);
    var total := CountMessages(t, forwarded);
    var read := 0;
    if WithinTtl(turn.timestamp, previousTimestamp, cfg.ttl) {
      read := CommonPrefixTokens(previousForwarded, forwarded, t);
    }
    var write := 0;
    if next.Some? && WithinTtl(next.value.timestamp, Some(turn.timestamp), cfg.ttl) {
      var nextCommon := CommonPrefixTokens(forwarded, next.value.forwarded, t);
      write := Max(0, nextCommon - read);
    }
    SplitFits(cfg, t, Previous(previousForwarded, previousTimestamp), Sent(forwarded, turn.timestamp), next);
    counts := TokenCounts(raw, total, read, write, Max(0, total - read - write), turn.outputTokens);
  }

  /** The accumulator the simulation updates in place, its counters grouped by kind. */
  class ModeSummary {
    const mode: string
    var sessions: int
    var requests: int
    var tokens: TokenCounts
    var costs: Costs
    var cache: CacheTurns
    var rewrites: RewriteTurns

    function Value(): Totals
      reads this
    {
      Totals(sessions, requests, tokens, costs, cache, rewrites)
    }

    constructor (mode: string, sessions: int)
      ensures this.mode == mode && Value() == ZERO.(sessions := sessions)
    {
      this.mode, this.sessions := mode, sessions;
      requests, tokens, costs, cache, rewrites := 0, NO_TOKENS, NO_COSTS, NO_CACHE, NO_REWRITES;
    }

    constructor FromTotals(mode: string, totals: Totals)
      ensures this.mode == mode && Value() == totals
    {
      this.mode, this.sessions := mode, totals.sessions;
      requests, tokens, costs := totals.requests, totals.tokens, totals.costs;
      cache, rewrites := totals.cache, totals.rewrites;
    }

    /** `_apply_turn_metrics`. */
    method ApplyTurnMetrics(cfg: Settings, turn: ReplayTurn, rawInputTokens: nat, forwarded: seq<Message>,
                            previousForwarded: seq<Message>, previousTimestamp: Option<int>,
                            next: Option<Sent>)
      modifies this`requests, this`tokens, this`costs, this`cache
      ensures requests == old(requests) + 1 && sessions == old(sessions) && rewrites == old(rewrites)
      ensures var cur, prev := Sent(forwarded, turn.timestamp), Previous(previousForwarded, previousTimestamp);
              var counts := TokensOf(cfg, turn, rawInputTokens, cur, prev, next);
              tokens == old(tokens).Plus(counts) &&
              costs == old(costs).Plus(Billed(ResolveRates(cfg, turn.model), counts)) &&
              cache == old(cache).Plus(CacheState(cfg, prev, cur))
    {
      ghost var prev := Previous(previousForwarded, previousTimestamp);
      if WithinTtl(turn.timestamp, previousTimestamp, cfg.ttl) {
        cache := cache.(eligible := cache.eligible + 1);
        if previousForwarded != [] && !PrefixPreserved(previousForwarded, forwarded) {
          cache := cache.(busts := cache.busts + 1);
        }
      } else if previousTimestamp.Some? {
        cache := cache.(expired := cache.expired + 1);
      }
      assert cache == old(cache).Plus(CacheState(cfg, prev, Sent(forwarded, turn.timestamp)));

      var counts := SplitTokens(cfg, turn, rawInputTokens, forwarded, previousForwarded, previousTimestamp, next);
      AddTurn(ResolveRates(cfg, turn.model), counts);
    }

    /** The additions that end `_apply_turn_metrics`. */
    method AddTurn(rates: Rates, counts: TokenCounts)
      modifies this`requests, this`tokens, this`costs
      ensures requests == old(requests) + 1
      ensures tokens == old(tokens).Plus(counts)
      ensures costs == old(costs).Plus(Billed(rates, counts))
    {
      requests := requests + 1;
      tokens := tokens.Plus(counts);
      costs := costs.Plus(Billed(rates, counts));
    }

    /** The rewrite bookkeeping of the simulation loop. */
    method RecordRewrite(cfg: Settings, original: seq<Message>, forwarded: seq<Message>, prior: nat, timestamp: int,
                         priorForwarded: seq<Message>, priorTimestamp: Option<int>)
      requires prior <= |original|
      modifies this`rewrites
      ensures Value() == old(Value()).(rewrites := rewrites)
      ensures rewrites == old(rewrites).Plus(
                            RewriteOf(cfg, original, prior, Sent(forwarded, timestamp),
                                      Previous(priorForwarded, priorTimestamp)))
    {
      RewriteScopeMeaning(original, forwarded, prior);
      var (rewrite, retroactive) := RewriteScope(original, forwarded, prior);
      if rewrite {
        var r := rewrites.(all := rewrites.all + 1);
        if retroactive {
          r := r.(retroactive := r.retroactive + 1);
        } else {
          r := r.(latestOnly := r.latestOnly + 1);
        }
        if WithinTtl(timestamp, priorTimestamp, cfg.ttl) && priorForwarded != [] {
          if PrefixPreserved(priorForwarded, forwarded) {
            r := r.(stable := r.stable + 1);
          } else {
            r := r.(busting := r.busting + 1);
          }
        } else {
          r := r.(nonEligible := r.nonEligible + 1);
        }
        rewrites := r;
      }
    }

    /** `_merge_mode_summary`; a summary merged into itself doubles. */
    method Merge(source: ModeSummary)
      modifies this
      ensures Value() == old(Value()).Plus(old(source.Value()))
    {
      sessions := sessions + source.sessions;
      requests := requests + source.requests;
      tokens := tokens.Plus(source.tokens);
      costs := costs.Plus(source.costs);
      cache := cache.Plus(source.cache);
      rewrites := rewrites.Plus(source.rewrites);
    }
  }

  /** The loop variables for the previous request, as one optional value. */
  function Previous(forwarded: seq<Message>, timestamp: Option<int>): Option<Sent> {
    if timestamp.None? then None else Some(Sent(forwarded, timestamp.value))
  }
}
