/** Replaying one session through a mode: the requests it sends, and the lagged loop that scores them. */
module Replay {
  import opened Json
  import opened Prefix
  import opened Accounting

  /** A compressor of new messages that may depend on every turn so far. */
  type Pipeline = (seq<ReplayTurn>, seq<Message>) -> seq<Message>

  /**
    The three modes. What the compressors do is not modelled: the cache-mode
    pipeline is any function of the turns so far and the new messages, and the
    token mode forwards any function of the turns so far.
   */
  datatype Mode =
    | Baseline
    | Token(compress: seq<ReplayTurn> -> seq<Message>)
    | Cache(pipeline: Pipeline)
  {
    function Name(): string {
      match this
      case Baseline => "baseline"
      case Token(_) => "token"
      case Cache(_) => "cache"
    }
  }

  /** `_extract_cache_stable_delta`: the forwarded prefix to replay, and the new messages. */
  function ExtractCacheStableDelta(current: seq<Message>, previousOriginal: Option<seq<Message>>,
                                   previousForwarded: Option<seq<Message>>): Option<(seq<Message>, seq<Message>)>
  {
    if previousOriginal.None? || previousForwarded.None? then None
    else if |current| < |previousOriginal.value| then None
    else
      var stable := |previousOriginal.value|;
      if current[..stable] != previousOriginal.value then None
      else Some((previousForwarded.value, current[stable..]))
  }

  /** `_apply_mode_to_messages`, on the last turn of `history`. */
  function ApplyMode(mode: Mode, history: seq<ReplayTurn>, messages: seq<Message>,
                     previousOriginal: Option<seq<Message>>, previousForwarded: Option<seq<Message>>): seq<Message>
  {
    match mode
    case Baseline => messages
    case Token(compress) => compress(history)
    case Cache(pipeline) =>
      match ExtractCacheStableDelta(messages, previousOriginal, previousForwarded)
      case None => messages
      case Some((prefix, delta)) => if delta == [] then prefix else prefix + pipeline(history, delta)
  }

  /** `trim_replay_to_recent_turns`. */
  function TrimToRecent(turns: seq<ReplayTurn>, recent: Option<int>): (r: seq<ReplayTurn>)
    ensures |r| == if recent.Some? && recent.value > 0 then Min(|turns|, recent.value) else |turns|
    ensures r == turns[|turns| - |r|..]
  {
    if recent.None? || recent.value <= 0 || |turns| <= recent.value then turns
    else turns[|turns| - recent.value..]
  }

  /** One request: the raw conversation, how much of it is old, its running token count, what was sent. */
  datatype Request = Request(turn: ReplayTurn, original: seq<Message>, prior: nat, raw: nat, forwarded: seq<Message>)
  {
    function AsSent(): Sent { Sent(forwarded, turn.timestamp) }

    /** The raw conversation once the assistant has answered. */
    function Answered(): seq<Message> { original + [turn.assistant] }

    /** The same, as the provider saw it. */
    function AnsweredForwarded(): seq<Message> { forwarded + [turn.assistant] }
  }

  /** The raw conversation before the next turn, given the last request if any. */
  function Conversation(last: Option<Request>): seq<Message> {
    if last.None? then [] else last.value.Answered()
  }

  /** Its running token count, each message counted by the model of its own turn. */
  function ConversationTokens(cfg: Settings, last: Option<Request>): nat {
    if last.None? then 0
    else last.value.raw + CountMessage(TokenizerFor(cfg, last.value.turn.model), last.value.turn.assistant)
  }

  function OriginalContext(last: Option<Request>): Option<seq<Message>> {
    if last.None? then None else Some(last.value.Answered())
  }

  function ForwardedContext(last: Option<Request>): Option<seq<Message>> {
    if last.None? then None else Some(last.value.AnsweredForwarded())
  }

  /** The request for the last turn of `history`. */
  function NextRequest(cfg: Settings, mode: Mode, last: Option<Request>, history: seq<ReplayTurn>): Request
    requires history != []
  {
    var turn := history[|history| - 1];
    var original := Conversation(last) + turn.inputs;
    Request(turn, original, |Conversation(last)|,
            ConversationTokens(cfg, last) + Tokens(TokenizerFor(cfg, turn.model), turn.inputs),
            ApplyMode(mode, history, original, OriginalContext(last), ForwardedContext(last)))
  }

  function LastBefore(reqs: seq<Request>, k: nat): Option<Request>
    requires k <= |reqs|
  {
    if k == 0 then None else Some(reqs[k - 1])
  }

  /** The requests a session sends, in order. */
  function Requests(cfg: Settings, mode: Mode, turns: seq<ReplayTurn>): (reqs: seq<Request>)
    ensures |reqs| == |turns|
  {
    if turns == [] then []
    else
      var sent := Requests(cfg, mode, turns[..|turns| - 1]);
      sent + [NextRequest(cfg, mode, LastBefore(sent, |sent|), turns)]
  }

  lemma NextRequestTurn(cfg: Settings, mode: Mode, last: Option<Request>, history: seq<ReplayTurn>)
    requires history != []
    ensures NextRequest(cfg, mode, last, history).turn == history[|history| - 1]
  {
  }

  /** Each request depends on the one before and the turns so far. */
  lemma {:induction false} RequestAt(cfg: Settings, mode: Mode, turns: seq<ReplayTurn>, k: nat)
    requires k < |turns|
    ensures var reqs := Requests(cfg, mode, turns);
            reqs[k] == NextRequest(cfg, mode, LastBefore(reqs, k), turns[..k + 1]) && reqs[k].turn == turns[k]
    decreases |turns|
  {
    hide NextRequest;
    var front := turns[..|turns| - 1];
    if k == |turns| - 1 {
      assert turns[..k + 1] == turns;
      NextRequestTurn(cfg, mode, LastBefore(Requests(cfg, mode, front), k), turns);
    } else {
      RequestAt(cfg, mode, front, k);
      assert front[..k + 1] == turns[..k + 1];
    }
  }

  function Before(reqs: seq<Request>, k: nat): Option<Sent>
    requires k < |reqs|
  {
    if k == 0 then None else Some(reqs[k - 1].AsSent())
  }

  function After(reqs: seq<Request>, k: nat): Option<Sent>
    requires k < |reqs|
  {
    if k + 1 == |reqs| then None else Some(reqs[k + 1].AsSent())
  }

  /** Turn `k`'s token split, read off its two neighbours directly. */
  function TokensAt(cfg: Settings, reqs: seq<Request>, k: nat): TokenCounts
    requires k < |reqs|
  {
    TokensOf(cfg, reqs[k].turn, reqs[k].raw, reqs[k].AsSent(), Before(reqs, k), After(reqs, k))
  }

  function CostsAt(cfg: Settings, reqs: seq<Request>, k: nat): Costs
    requires k < |reqs|
  {
    Billed(ResolveRates(cfg, reqs[k].turn.model), TokensAt(cfg, reqs, k))
  }

  function CacheAt(cfg: Settings, reqs: seq<Request>, k: nat): CacheTurns
    requires k < |reqs|
  {
    CacheState(cfg, Before(reqs, k), reqs[k].AsSent())
  }

  function RewritesAt(cfg: Settings, reqs: seq<Request>, k: nat): RewriteTurns
    requires k < |reqs|
  {
    RewriteOf(cfg, reqs[k].original, reqs[k].prior, reqs[k].AsSent(), Before(reqs, k))
  }

  function TokensUpTo(cfg: Settings, reqs: seq<Request>, n: nat): TokenCounts
    requires n <= |reqs|
  {
    if n == 0 then NO_TOKENS else TokensUpTo(cfg, reqs, n - 1).Plus(TokensAt(cfg, reqs, n - 1))
  }

  function CostsUpTo(cfg: Settings, reqs: seq<Request>, n: nat): Costs
    requires n <= |reqs|
  {
    if n == 0 then NO_COSTS else CostsUpTo(cfg, reqs, n - 1).Plus(CostsAt(cfg, reqs, n - 1))
  }

  function CacheUpTo(cfg: Settings, reqs: seq<Request>, n: nat): CacheTurns
    requires n <= |reqs|
  {
    if n == 0 then NO_CACHE else CacheUpTo(cfg, reqs, n - 1).Plus(CacheAt(cfg, reqs, n - 1))
  }

  function RewritesUpTo(cfg: Settings, reqs: seq<Request>, n: nat): RewriteTurns
    requires n <= |reqs|
  {
    if n == 0 then NO_REWRITES else RewritesUpTo(cfg, reqs, n - 1).Plus(RewritesAt(cfg, reqs, n - 1))
  }

  /** Rewrites of the first `i` turns, everything else of the first `m`. */
  function PartialTotals(cfg: Settings, reqs: seq<Request>, m: nat, i: nat): Totals
    requires m <= |reqs| && i <= |reqs|
  {
    Totals(1, m, TokensUpTo(cfg, reqs, m), CostsUpTo(cfg, reqs, m), CacheUpTo(cfg, reqs, m),
           RewritesUpTo(cfg, reqs, i))
  }

  /** What a finished session adds up to, turn by turn, with no lag anywhere. */
  function SessionTotals(cfg: Settings, reqs: seq<Request>): Totals {
    PartialTotals(cfg, reqs, |reqs|, |reqs|)
  }

  /** The loop's conversation variables are those that follow the last request. */
  ghost predicate InStep(cfg: Settings, last: Option<Request>, conversation: seq<Message>, conversationTokens: nat,
                         originalContext: Option<seq<Message>>, forwardedContext: Option<seq<Message>>)
  {
    && conversation == Conversation(last)
    && conversationTokens == ConversationTokens(cfg, last)
    && originalContext == OriginalContext(last)
    && forwardedContext == ForwardedContext(last)
  }

  lemma InStepAtStart(cfg: Settings)
    ensures InStep(cfg, None, [], 0, None, None)
  {
  }

  /** The part of a loop iteration that sends the request and takes in the answer. */
  method SendTurn(cfg: Settings, mode: Mode, turns: seq<ReplayTurn>, i: nat, before: seq<Message>, beforeTokens: nat,
                  originalContext: Option<seq<Message>>, forwardedContext: Option<seq<Message>>)
    returns (request: Request, answered: seq<Message>, answeredTokens: nat,
             original: Option<seq<Message>>, context: Option<seq<Message>>)
    requires i < |turns|
    requires InStep(cfg, LastBefore(Requests(cfg, mode, turns), i), before, beforeTokens, originalContext,
                    forwardedContext)
    ensures request == Requests(cfg, mode, turns)[i] && request.prior <= |request.original|
    ensures InStep(cfg, Some(request), answered, answeredTokens, original, context)
  {
    RequestAt(cfg, mode, turns, i);
    var turn := turns[i];
    var conversation := before + turn.inputs;
    var raw := beforeTokens + Tokens(TokenizerFor(cfg, turn.model), turn.inputs);
    var forwarded := ApplyMode(mode, turns[..i + 1], conversation, originalContext, forwardedContext);
    request := Request(turn, conversation, |before|, raw, forwarded);
    answered := conversation + [turn.assistant];
    answeredTokens := raw + CountMessage(TokenizerFor(cfg, turn.model), turn.assistant);
    original, context := Some(answered), Some(forwarded + [turn.assistant]);
  }

  /** A session's summary before its first turn. */
  method NewSummary(cfg: Settings, mode: string, ghost reqs: seq<Request>) returns (summary: ModeSummary)
    ensures fresh(summary) && summary.mode == mode && Lagging(summary, cfg, reqs, 0)
  {
    summary := new ModeSummary(mode, 1);
  }

  /** The summary after `i` turns of the loop: rewrites of all of them, everything else of all but the last. */
  ghost predicate Lagging(summary: ModeSummary, cfg: Settings, reqs: seq<Request>, i: nat)
    requires i <= |reqs|
    reads summary
  {
    summary.Value() == PartialTotals(cfg, reqs, Max(i - 1, 0), i)
  }

  /** After `i` turns the loop's previous request is turn `i - 2`'s. */
  ghost predicate Trailing(reqs: seq<Request>, i: nat, forwarded: seq<Message>, timestamp: Option<int>)
    requires i <= |reqs|
  {
    if i <= 1 then forwarded == [] && timestamp == None
    else forwarded == reqs[i - 2].forwarded && timestamp == Some(reqs[i - 2].turn.timestamp)
  }

  /** The part of a loop iteration that scores: the new request's rewrite, and the pending turn's metrics. */
  method ScoreTurn(summary: ModeSummary, cfg: Settings, ghost reqs: seq<Request>, ghost i: nat, request: Request,
                   pending: Option<Request>, previousForwarded: seq<Message>, previousTimestamp: Option<int>)
    requires i < |reqs| && request == reqs[i] && request.prior <= |request.original|
    requires pending == LastBefore(reqs, i)
    requires Trailing(reqs, i, previousForwarded, previousTimestamp)
    requires Lagging(summary, cfg, reqs, i)
    modifies summary
    ensures Lagging(summary, cfg, reqs, i + 1)
  {
    hide TokensOf;
    hide Billed;
    hide ResolveRates;
    hide CacheState;
    hide RewriteOf;
    var forwarded, timestamp := request.forwarded, request.turn.timestamp;
    var priorForwarded := if pending.Some? then pending.value.forwarded else previousForwarded;
    var priorTimestamp := if pending.Some? then Some(pending.value.turn.timestamp) else previousTimestamp;
    assert Previous(priorForwarded, priorTimestamp) == Before(reqs, i);
    summary.RecordRewrite(cfg, request.original, forwarded, request.prior, timestamp, priorForwarded, priorTimestamp);
    if pending.Some? {
      assert Previous(previousForwarded, previousTimestamp) == Before(reqs, i - 1);
      assert After(reqs, i - 1) == Some(Sent(forwarded, timestamp));
      summary.ApplyTurnMetrics(cfg, pending.value.turn, pending.value.raw, pending.value.forwarded,
                               previousForwarded, previousTimestamp, Some(Sent(forwarded, timestamp)));
    }
  }

  /** After the loop: the last turn is scored with nothing after it. */
  method FlushPending(summary: ModeSummary, cfg: Settings, ghost reqs: seq<Request>,
                      pending: Option<Request>, previousForwarded: seq<Message>, previousTimestamp: Option<int>)
    requires pending == LastBefore(reqs, |reqs|)
    requires Trailing(reqs, |reqs|, previousForwarded, previousTimestamp)
    requires Lagging(summary, cfg, reqs, |reqs|)
    modifies summary
    ensures summary.Value() == SessionTotals(cfg, reqs)
  {
    hide TokensOf;
    hide Billed;
    hide ResolveRates;
    hide CacheState;
    if pending.Some? {
      ghost var k := |reqs| - 1;
      assert Previous(previousForwarded, previousTimestamp) == Before(reqs, k) && After(reqs, k) == None;
      assert summary.Value() == PartialTotals(cfg, reqs, k, k + 1);
      summary.ApplyTurnMetrics(cfg, pending.value.turn, pending.value.raw, pending.value.forwarded,
                               previousForwarded, previousTimestamp, None);
      assert summary.Value() == PartialTotals(cfg, reqs, k + 1, k + 1);
    }
  }

  /**
    `_simulate_single_replay_mode`. The loop scores a turn only once it has
    seen the next one, and classifies rewrites one turn ahead of that; the
    result is the sum of the turns' own metrics all the same.
   */
  method SimulateReplay(cfg: Settings, mode: Mode, turns: seq<ReplayTurn>) returns (summary: ModeSummary)
    ensures fresh(summary) && summary.mode == mode.Name()
    ensures summary.Value() == SessionTotals(cfg, Requests(cfg, mode, turns))
  {
    hide Lagging;
    hide InStep;
    hide Requests;
    ghost var all := Requests(cfg, mode, turns);
    summary := NewSummary(cfg, mode.Name(), all);
    InStepAtStart(cfg);
    var pending: Option<Request> := None;
    var conversation: seq<Message>, conversationTokens: nat := [], 0;
    var previousForwarded: seq<Message>, previousTimestamp: Option<int> := [], None;
    var originalContext: Option<seq<Message>>, forwardedContext: Option<seq<Message>> := None, None;

    for i := 0 to |turns|
      invariant fresh(summary) && summary.mode == mode.Name()
      invariant pending == LastBefore(all, i)
      invariant InStep(cfg, pending, conversation, conversationTokens, originalContext, forwardedContext)
      invariant Trailing(all, i, previousForwarded, previousTimestamp)
      invariant Lagging(summary, cfg, all, i)
    {
      var request;
      request, conversation, conversationTokens, originalContext, forwardedContext :=
        SendTurn(cfg, mode, turns, i, conversation, conversationTokens, originalContext, forwardedContext);
      assert LastBefore(all, i + 1) == Some(request);
      ScoreTurn(summary, cfg, all, i, request, pending, previousForwarded, previousTimestamp);
      if pending.Some? {
        previousForwarded, previousTimestamp := pending.value.forwarded, Some(pending.value.turn.timestamp);
      }
      pending := Some(request);
    }
    FlushPending(summary, cfg, all, pending, previousForwarded, previousTimestamp);
  }
}
