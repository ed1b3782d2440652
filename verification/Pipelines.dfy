/** The two synthetic compression pipelines, and what replaying through them does. */
module Pipelines {
  import opened Json
  import opened Prefix
  import opened Accounting
  import opened Replay
  import opened ReplayLaws
  import opened BustDetectors
  import Transcript

  const OLDER_MARKER := "[compressed-older-tool-result]"
  const MARKER := "[compressed-tool-result]"

  predicate IsToolResult(b: Value) {
    b.Obj? && Get(b.fields, "type") == Str("tool_result")
  }

  predicate HasToolResult(m: Message) {
    Get(m, "content").Arr? && exists b | b in Get(m, "content").items :: IsToolResult(b)
  }

  function CompressBlock(marker: string, b: Value): Value {
    if IsToolResult(b) then Obj(b.fields["content" := Str(marker)]) else b
  }

  function CompressBlocks(marker: string, bs: seq<Value>): (r: seq<Value>)
    ensures |r| == |bs| && forall i :: 0 <= i < |bs| ==> r[i] == CompressBlock(marker, bs[i])
  {
    if bs == [] then [] else CompressBlocks(marker, bs[..|bs| - 1]) + [CompressBlock(marker, bs[|bs| - 1])]
  }

  function CompressMessage(marker: string, m: Message): Message {
    if HasToolResult(m) then m["content" := Arr(CompressBlocks(marker, Get(m, "content").items))] else m
  }

  /** Compress the first `n` messages and leave the rest alone. */
  function CompressFirst(marker: string, ms: seq<Message>, n: int): (r: seq<Message>)
    ensures |r| == |ms|
    ensures forall i :: 0 <= i < |ms| ==> r[i] == if i < n then CompressMessage(marker, ms[i]) else ms[i]
  {
    seq(|ms|, i requires 0 <= i < |ms| => if i < n then CompressMessage(marker, ms[i]) else ms[i])
  }

  /** What `_HistoryPressurePipeline` yields: all but the latest two messages compressed. */
  function HistoryPressure(ms: seq<Message>): seq<Message> {
    CompressFirst(OLDER_MARKER, ms, |ms| - 2)
  }

  /** What `_FakePipeline` yields: everything compressed once there are more than two messages. */
  function FakePipeline(ms: seq<Message>): seq<Message> {
    CompressFirst(MARKER, ms, if |ms| > 2 then |ms| else 0)
  }

  /** The inner loop of both pipelines. */
  method RewriteBlocks(marker: string, content: seq<Value>) returns (newBlocks: seq<Value>)
    ensures newBlocks == CompressBlocks(marker, content)
  {
    newBlocks := [];
    for i := 0 to |content|
      invariant newBlocks == CompressBlocks(marker, content[..i])
    {
      assert content[..i + 1][..i] == content[..i];
      var block := content[i];
      if IsToolResult(block) {
        newBlocks := newBlocks + [Obj(block.fields["content" := Str(marker)])];
      } else {
        newBlocks := newBlocks + [block];
      }
    }
    assert content[..|content|] == content;
  }

  /** `_HistoryPressurePipeline.apply`. */
  method ApplyHistoryPressure(messages: seq<Message>) returns (rewritten: seq<Message>)
    ensures rewritten == HistoryPressure(messages)
  {
    rewritten := [];
    var protectedStart := Max(|messages| - 2, 0);
    for index := 0 to |messages|
      invariant rewritten == HistoryPressure(messages)[..index]
    {
      var message := messages[index];
      if index < protectedStart && HasToolResult(message) {
        var newBlocks := RewriteBlocks(OLDER_MARKER, Get(message, "content").items);
        rewritten := rewritten + [message["content" := Arr(newBlocks)]];
      } else {
        rewritten := rewritten + [message];
      }
    }
  }

  /** `_FakePipeline.apply`. */
  method ApplyFakePipeline(messages: seq<Message>) returns (rewritten: seq<Message>)
    ensures rewritten == FakePipeline(messages)
  {
    rewritten := [];
    var shouldRewrite := |messages| > 2;
    for index := 0 to |messages|
      invariant rewritten == FakePipeline(messages)[..index]
    {
      var message := messages[index];
      if shouldRewrite && HasToolResult(message) {
        var newBlocks := RewriteBlocks(MARKER, Get(message, "content").items);
        rewritten := rewritten + [message["content" := Arr(newBlocks)]];
      } else {
        rewritten := rewritten + [message];
      }
    }
  }

  // ----- When recompressing keeps the prefix -----

  /** Every tool result of the message already carries the marker. */
  predicate Settled(marker: string, m: Message) {
    Get(m, "content").Arr? ==>
      forall b | b in Get(m, "content").items :: IsToolResult(b) ==> Get(b.fields, "content") == Str(marker)
  }

  lemma {:induction false} BlockFixedIff(marker: string, b: Value)
    ensures CompressBlock(marker, b) == b <==> (IsToolResult(b) ==> Get(b.fields, "content") == Str(marker))
    ensures CompressBlock(marker, CompressBlock(marker, b)) == CompressBlock(marker, b)
    ensures IsToolResult(CompressBlock(marker, b)) == IsToolResult(b)
  {
    if IsToolResult(b) {
      var marked := b.fields["content" := Str(marker)];
      assert marked["content" := Str(marker)] == marked;
      assert marked == b.fields <==> Get(b.fields, "content") == Str(marker);
    }
  }

  /** Compression leaves exactly the settled messages as they are. */
  lemma {:induction false} MessageFixedIff(marker: string, m: Message)
    ensures CompressMessage(marker, m) == m <==> Settled(marker, m)
  {
    if HasToolResult(m) {
      var items := Get(m, "content").items;
      forall b | b in items
        ensures CompressBlock(marker, b) == b <==> (IsToolResult(b) ==> Get(b.fields, "content") == Str(marker))
      {
        BlockFixedIff(marker, b);
      }
      assert CompressMessage(marker, m) == m <==> CompressBlocks(marker, items) == items by {
        assert CompressMessage(marker, m)["content"] == Arr(CompressBlocks(marker, items));
        assert m["content"] == Arr(items);
      }
      assert forall i :: 0 <= i < |items| ==> items[i] in items;
    }
  }

  lemma {:induction false} CompressIdempotent(marker: string, m: Message)
    ensures CompressMessage(marker, CompressMessage(marker, m)) == CompressMessage(marker, m)
  {
    if HasToolResult(m) {
      var r := CompressMessage(marker, m);
      var items, again := Get(m, "content").items, Get(r, "content").items;
      forall i | 0 <= i < |items|
        ensures CompressBlock(marker, again[i]) == again[i]
      {
        BlockFixedIff(marker, items[i]);
      }
      assert CompressBlocks(marker, again) == again;
    }
  }

  lemma {:induction false} HistoryPressureIdempotent(ms: seq<Message>)
    ensures HistoryPressure(HistoryPressure(ms)) == HistoryPressure(ms)
  {
    forall i | 0 <= i < |ms|
      ensures HistoryPressure(HistoryPressure(ms))[i] == HistoryPressure(ms)[i]
    {
      CompressIdempotent(OLDER_MARKER, ms[i]);
    }
  }

  // ----- What the pipelines change -----

  /** A tool result got the marker for content and kept everything else; another block stayed. */
  ghost predicate BlockChanged(marker: string, b: Value, c: Value) {
    if b.Obj? && Get(b.fields, "type") == Str("tool_result") then
      && c.Obj? && c.fields.Keys == b.fields.Keys + {"content"} && Get(c.fields, "content") == Str(marker)
      && forall k :: k != "content" ==> Get(c.fields, k) == Get(b.fields, k)
    else c == b
  }

  /** Nothing of the message changed but the content of its tool results. */
  ghost predicate OnlyToolResults(marker: string, m: Message, r: Message) {
    && r.Keys == m.Keys && (forall k :: k != "content" ==> Get(r, k) == Get(m, k))
    && match Get(m, "content")
       case Arr(items) =>
         && Get(r, "content").Arr? && |Get(r, "content").items| == |items|
         && forall i :: 0 <= i < |items| ==> BlockChanged(marker, items[i], Get(r, "content").items[i])
       case other => Get(r, "content") == other
  }

  lemma {:induction false} CompressMeaning(marker: string, m: Message)
    ensures OnlyToolResults(marker, m, CompressMessage(marker, m))
  {
    if HasToolResult(m) {
      var items := Get(m, "content").items;
      forall i | 0 <= i < |items|
        ensures BlockChanged(marker, items[i], CompressBlock(marker, items[i]))
      {
      }
    } else if Get(m, "content").Arr? {
      var items := Get(m, "content").items;
      assert forall i :: 0 <= i < |items| ==> items[i] in items;
    }
  }

  /** All but the latest two messages, or all messages once there are more than two, and only their tool results. */
  lemma {:induction false} PipelineMeaning(ms: seq<Message>, i: nat)
    requires i < |ms|
    ensures if i + 2 < |ms| then OnlyToolResults("[compressed-older-tool-result]", ms[i], HistoryPressure(ms)[i])
            else HistoryPressure(ms)[i] == ms[i]
    ensures if |ms| > 2 then OnlyToolResults("[compressed-tool-result]", ms[i], FakePipeline(ms)[i])
            else FakePipeline(ms)[i] == ms[i]
  {
    hide OnlyToolResults;
    hide CompressMessage;
    CompressMeaning(OLDER_MARKER, ms[i]);
    CompressMeaning(MARKER, ms[i]);
  }

  /** The messages of `a` that leave the two-message protected window as `b` is appended are all settled. */
  ghost predicate LeavingSettled(a: seq<Message>, b: seq<Message>) {
    forall i :: Max(|a| - 2, 0) <= i < |a| && i < |a| + |b| - 2 ==> Settled(OLDER_MARKER, a[i])
  }

  /** Re-running the pipeline on a grown conversation keeps its old output exactly in that case. */
  lemma {:induction false} GrownKeepsPrefixIff(a: seq<Message>, b: seq<Message>)
    ensures HistoryPressure(a) <= HistoryPressure(a + b) <==> LeavingSettled(a, b)
  {
    var old', new' := HistoryPressure(a), HistoryPressure(a + b);
    forall i | 0 <= i < |a|
      ensures old'[i] == new'[i] <==>
              (Max(|a| - 2, 0) <= i && i < |a| + |b| - 2 ==> Settled(OLDER_MARKER, a[i]))
    {
      assert (a + b)[i] == a[i];
      MessageFixedIff(OLDER_MARKER, a[i]);
    }
    assert old' <= new' <==> forall i :: 0 <= i < |a| ==> old'[i] == new'[i];
  }

  // ----- Reprocessing the whole history busts exactly then -----

  /** The raw conversation sent with the last of these turns. */
  function FullHistory(turns: seq<ReplayTurn>): seq<Message> {
    if turns == [] then []
    else
      var earlier := turns[..|turns| - 1];
      FullHistory(earlier)
      + (if earlier == [] then [] else [earlier[|earlier| - 1].assistant])
      + turns[|turns| - 1].inputs
  }

  lemma {:induction false} OriginalIsHistory(cfg: Settings, mode: Mode, turns: seq<ReplayTurn>, k: nat)
    requires k < |turns|
    ensures Requests(cfg, mode, turns)[k].original == FullHistory(turns[..k + 1])
  {
    hide Requests;
    hide ApplyMode;
    RequestAt(cfg, mode, turns, k);
    assert turns[..k + 1][..k] == turns[..k];
    if k > 0 {
      OriginalIsHistory(cfg, mode, turns, k - 1);
      RequestAt(cfg, mode, turns, k - 1);
    }
  }

  /** The whole history through the pipeline every turn, without the compression cache that token mode keeps. */
  function WholeHistoryMode(): Mode {
    Token(history => HistoryPressure(FullHistory(history)))
  }

  /** The new messages of a turn, seen from the request before it. */
  function Appended(reqs: seq<Request>, k: nat): seq<Message>
    requires 0 < k < |reqs|
  {
    [reqs[k - 1].turn.assistant] + reqs[k].turn.inputs
  }

  lemma {:induction false} WholeHistoryForwards(cfg: Settings, turns: seq<ReplayTurn>, k: nat)
    requires k < |turns|
    ensures var r := Requests(cfg, WholeHistoryMode(), turns)[k]; r.forwarded == HistoryPressure(r.original)
  {
    hide Requests;
    hide HistoryPressure;
    hide FullHistory;
    RequestAt(cfg, WholeHistoryMode(), turns, k);
    OriginalIsHistory(cfg, WholeHistoryMode(), turns, k);
  }

  lemma {:induction false} OriginalGrows(cfg: Settings, mode: Mode, turns: seq<ReplayTurn>, k: nat)
    requires 0 < k < |turns|
    ensures var reqs := Requests(cfg, mode, turns); reqs[k].original == reqs[k - 1].original + Appended(reqs, k)
  {
    hide Requests;
    hide ApplyMode;
    RequestAt(cfg, mode, turns, k);
  }

  /** A turn busts the cache exactly when it is in time and an uncompressed tool result ages out of the window. */
  lemma {:induction false} WholeHistoryBustsIff(cfg: Settings, turns: seq<ReplayTurn>, k: nat)
    requires 0 < k < |turns|
    ensures var reqs := Requests(cfg, WholeHistoryMode(), turns);
            Bust(cfg, reqs, k) <==>
            Warm(cfg, Before(reqs, k), reqs[k].AsSent()) && !LeavingSettled(reqs[k - 1].original, Appended(reqs, k))
  {
    hide HistoryPressure;
    hide LeavingSettled;
    hide Requests;
    hide Appended;
    var reqs := Requests(cfg, WholeHistoryMode(), turns);
    WholeHistoryForwards(cfg, turns, k - 1);
    WholeHistoryForwards(cfg, turns, k);
    OriginalGrows(cfg, WholeHistoryMode(), turns, k);
    GrownKeepsPrefixIff(reqs[k - 1].original, Appended(reqs, k));
  }

  // ----- Small turns: cache mode is baseline -----

  /** A pipeline that passes one or two messages through unchanged. */
  ghost predicate KeepsPairs(pipeline: Pipeline) {
    forall history, ms {:trigger pipeline(history, ms)} :: |ms| <= 2 ==> pipeline(history, ms) == ms
  }

  /** Both synthetic pipelines do. */
  lemma {:induction false} SyntheticPipelinesKeepPairs()
    ensures KeepsPairs((_, ms) => HistoryPressure(ms))
    ensures KeepsPairs((_, ms) => FakePipeline(ms))
  {
    forall ms: seq<Message> | |ms| <= 2
      ensures HistoryPressure(ms) == ms && FakePipeline(ms) == ms
    {
    }
  }

  lemma {:induction false} BaselineForwardsRaw(cfg: Settings, turns: seq<ReplayTurn>, k: nat)
    requires k < |turns|
    ensures Requests(cfg, Baseline, turns)[k].forwarded == Requests(cfg, Baseline, turns)[k].original
  {
    RequestAt(cfg, Baseline, turns, k);
  }

  /** Then the two modes send the same requests. */
  lemma {:induction false} CacheModeIsBaseline(cfg: Settings, pipeline: Pipeline, turns: seq<ReplayTurn>)
    requires KeepsPairs(pipeline) && forall k :: 0 <= k < |turns| ==> |turns[k].inputs| <= 2
    ensures Requests(cfg, Cache(pipeline), turns) == Requests(cfg, Baseline, turns)
  {
    hide NextRequest;
    if turns != [] {
      var front := turns[..|turns| - 1];
      CacheModeIsBaseline(cfg, pipeline, front);
      var last := LastBefore(Requests(cfg, Baseline, front), |front|);
      if last.Some? {
        BaselineForwardsRaw(cfg, front, |front| - 1);
      }
      NextRequestAgrees(cfg, pipeline, last, turns);
    }
  }

  lemma {:induction false} NextRequestAgrees(cfg: Settings, pipeline: Pipeline, last: Option<Request>,
                                             history: seq<ReplayTurn>)
    requires KeepsPairs(pipeline) && history != [] && |history[|history| - 1].inputs| <= 2
    requires last.Some? ==> last.value.forwarded == last.value.original
    ensures NextRequest(cfg, Cache(pipeline), last, history) == NextRequest(cfg, Baseline, last, history)
  {
    if last.Some? {
      var answered, inputs := last.value.Answered(), history[|history| - 1].inputs;
      var original := answered + inputs;
      assert original[..|answered|] == answered && original[|answered|..] == inputs;
      assert pipeline(history, inputs) == inputs;
      assert inputs == [] ==> original == answered;
    }
  }

  lemma {:induction false} UnchangedIsNoRewrite(cfg: Settings, reqs: seq<Request>, n: nat)
    requires n <= |reqs| && forall k :: 0 <= k < |reqs| ==> reqs[k].forwarded == reqs[k].original
    ensures RewritesUpTo(cfg, reqs, n) == NO_REWRITES
  {
    if n > 0 {
      UnchangedIsNoRewrite(cfg, reqs, n - 1);
      assert RewritesAt(cfg, reqs, n - 1) == NO_REWRITES;
    }
  }

  lemma {:induction false} BaselineNeverRewrites(cfg: Settings, turns: seq<ReplayTurn>)
    ensures RewritesUpTo(cfg, Requests(cfg, Baseline, turns), |turns|) == NO_REWRITES
  {
    forall k | 0 <= k < |turns|
      ensures Requests(cfg, Baseline, turns)[k].forwarded == Requests(cfg, Baseline, turns)[k].original
    {
      BaselineForwardsRaw(cfg, turns, k);
    }
    UnchangedIsNoRewrite(cfg, Requests(cfg, Baseline, turns), |turns|);
  }

  /** With one model, the incrementally kept raw count is a full recount of the conversation. */
  lemma {:induction false} RawIsRecount(cfg: Settings, mode: Mode, turns: seq<ReplayTurn>, model: string, k: nat)
    requires k < |turns| && OneModel(turns, model)
    ensures var r := Requests(cfg, mode, turns)[k]; r.raw == Tokens(TokenizerFor(cfg, model), r.original)
  {
    hide Requests;
    hide NextRequest;
    hide Tokens;
    RequestAt(cfg, mode, turns, k);
    if k > 0 {
      RawIsRecount(cfg, mode, turns, model, k - 1);
      RequestAt(cfg, mode, turns, k - 1);
    }
    RawStep(cfg, mode, LastBefore(Requests(cfg, mode, turns), k), turns[..k + 1], model);
  }

  lemma {:induction false} RawStep(cfg: Settings, mode: Mode, last: Option<Request>, history: seq<ReplayTurn>,
                                   model: string)
    requires history != [] && history[|history| - 1].model == model
    requires last.Some? ==>
               last.value.turn.model == model && last.value.raw == Tokens(TokenizerFor(cfg, model), last.value.original)
    ensures var r := NextRequest(cfg, mode, last, history); r.raw == Tokens(TokenizerFor(cfg, model), r.original)
  {
    hide ApplyMode;
    var t, inputs := TokenizerFor(cfg, model), history[|history| - 1].inputs;
    TokensAppend(t, Conversation(last), inputs);
    if last.Some? {
      TokensAppend(t, last.value.original, [last.value.turn.assistant]);
      assert Tokens(t, [last.value.turn.assistant]) == CountMessage(t, last.value.turn.assistant);
    }
  }

  /** In baseline, forwarded tokens are the raw tokens plus the per-request overhead. */
  lemma {:induction false} BaselineForwardsRawTokens(cfg: Settings, turns: seq<ReplayTurn>, model: string, n: nat)
    requires n <= |turns| && OneModel(turns, model)
    ensures var total := TokensUpTo(cfg, Requests(cfg, Baseline, turns), n);
            total.forwarded == total.raw + n * TokenizerFor(cfg, model).overhead
  {
    hide TokensAt;
    hide Requests;
    if n > 0 {
      BaselineForwardsRawTokens(cfg, turns, model, n - 1);
      BaselineTurnTokens(cfg, turns, model, n - 1);
      Multiples(n - 1, TokenizerFor(cfg, model).overhead);
    }
  }

  lemma {:induction false} BaselineTurnTokens(cfg: Settings, turns: seq<ReplayTurn>, model: string, k: nat)
    requires k < |turns| && OneModel(turns, model)
    ensures var counts := TokensAt(cfg, Requests(cfg, Baseline, turns), k);
            counts.forwarded == counts.raw + TokenizerFor(cfg, model).overhead
  {
    hide Requests;
    hide RegularTokens;
    BaselineForwardsRaw(cfg, turns, k);
    RawIsRecount(cfg, Baseline, turns, model, k);
    RequestAt(cfg, Baseline, turns, k);
  }

  /**
    For any replay with at most two input messages per turn, cache mode with
    such a pipeline gives the baseline's summary: no rewrites, no busts.
   */
  lemma {:induction false} SmallTurnsMatchBaseline(cfg: Settings, pipeline: Pipeline, turns: seq<ReplayTurn>)
    requires KeepsPairs(pipeline) && forall k :: 0 <= k < |turns| ==> |turns[k].inputs| <= 2
    ensures var total := SessionTotals(cfg, Requests(cfg, Cache(pipeline), turns));
            && total == SessionTotals(cfg, Requests(cfg, Baseline, turns))
            && total.rewrites == NO_REWRITES && total.cache.busts == 0
  {
    CacheModeIsBaseline(cfg, pipeline, turns);
    BaselineNeverRewrites(cfg, turns);
    CacheModeNeverBusts(cfg, pipeline, turns);
  }

  /** Every replay loaded from a transcript qualifies, trimmed or not. */
  lemma {:induction false} LoadedReplaysMatchBaseline(cfg: Settings, pipeline: Pipeline, key: Value -> string,
                                                      events: seq<Transcript.Event>, recent: Option<int>)
    requires KeepsPairs(pipeline)
    ensures var turns := TrimToRecent(Transcript.Turns(key, events), recent);
            SessionTotals(cfg, Requests(cfg, Cache(pipeline), turns))
            == SessionTotals(cfg, Requests(cfg, Baseline, turns))
  {
    hide Transcript.TurnsUpTo;
    var es := Transcript.Relevant(events);
    Transcript.OneInputPerTurn(key, es, |es|);
    SmallTurnsMatchBaseline(cfg, pipeline, TrimToRecent(Transcript.Turns(key, events), recent));
  }
}
