# Prefix-cache replay, proved

This project models the part of headroom that decides whether prompt
compression keeps the provider's prefix cache alive, and proves what that part
promises. Recorded Claude Code sessions are grouped into request turns, replayed
through three modes (baseline, token, cache), and scored turn by turn: which
input tokens are read from the cache, which are written to it, which are paid in
full, and whether the turn broke the cache. Sessions are then merged into one
summary per mode, some of them from checkpoint files.

| file | content |
|---|---|
| Json.dfy | JSON values and messages |
| Selection.dfy | picking elements out of a list in order |
| Prefix.dfy | common prefixes and their tokens |
| Accounting.dfy | one turn's split and cost; the mutable `ModeSummary` |
| Replay.dfy | the mode step, the request sequence, the lagged simulation loop |
| ReplayLaws.dfy | prefix stability, conservation, cost bounds, telescoping |
| BustDetectors.dfy | the two other bust-finding loops and how they compare |
| Outcomes.dfy | what is sent, counted, split, billed and reported, said of the recorded turns |
| Checkpoints.dfy | checkpoint format, merging, serial and parallel batches |
| Transcript.dfy | grouping transcript events into turns |
| Pipelines.dfy | the synthetic compression pipelines |
| Corpus.dfy | from raw transcripts to aggregates, end to end |
| LastMessage.dfy | growing the last message in place |
| TtlAnalysis.dfy, TtlTally.dfy, TtlCosts.dfy | the TTL cost analysis |
| CacheMarkers.dfy | cache breakpoint placement |

How the model is set up:

- Messages are JSON objects compared by value. `d.get(key)` gives null for a missing key, as in Python.
- The cache-mode pipeline is any function of the turns so far and the new messages. Token mode forwards any
  function of the turns so far, so results stated for an arbitrary request sequence cover it.
- A tokenizer is any function from messages to naturals plus a fixed overhead that `count_messages` adds once per
  list. The repository's base tokenizer has an overhead of 3 (headroom/tokenizers/base.py:56, 71-80, 127-130).
- Timestamps are integers in one unit with the TTL; costs are exact reals; dictionaries of counts are their items in
  insertion order.
- The simulation's two halves are separate methods (`SendTurn`, `ScoreTurn`), and the 22 counters of `ModeSummary`
  are grouped into tokens, costs, cache turns and rewrite turns.

What the proofs turned up:

- Turns of a warm cache-mode session before the last do not have zero regular input tokens: they have exactly the
  tokenizer's overhead, so writes plus regular tokens exceed the final request's count by one overhead per earlier
  turn. `CacheModeTelescopes` gives the exact condition, `ReplayTelescopes` the law for gaps of any length.
- `no_cache_total_cost_usd` leaves out the written tokens; `NoCacheOmitsWrites` says by exactly how much.
- The bust trace never looks at a session's last turn, and still returns one event when its cap is zero or less.
- Merging is transparent when sessions that share an id have the same totals, distinct ids being the usual case.
  Otherwise the number of workers shows: the serial branch counts the first such session again for the later ones, the
  parallel branch does not (`WorkersShowIff`, `CollisionShows`).
- The checkpoint directory is named after the TTL and the trimming but not the write multiplier, so a run with another
  multiplier picks up costs that are not its own (`SharedDirectoryIff`, `SharedDirectoryFails`).
- In the TTL analysis a message id first seen in a file that is then dropped (one turn, or an exception) is not counted
  anywhere else either; `IdCountedIff` says when an id is counted.
- The marker placement described as the second-to-last user message is the nearest user message before the last
  message.

## Model

| member | source | states |
|---|---|---|
| Replay.SimulateReplay | benchmarks/claude_session_mode_benchmark.py:1137-1267 | the lagged loop, which scores a turn only after seeing the next one and classifies rewrites one turn ahead, returns exactly the sum over turns of each turn's own token split, cost, cache state and rewrite class |
| Replay.SendTurn | benchmarks/claude_session_mode_benchmark.py:1158-1178 | one iteration's request is the one determined by the previous request and the turns so far, and the conversation variables it leaves are those of the answered conversation |
| Replay.ScoreTurn | benchmarks/claude_session_mode_benchmark.py:1179-1221 | one iteration adds the new request's rewrite class and the pending turn's metrics, each computed from its true neighbours |
| Replay.FlushPending | benchmarks/claude_session_mode_benchmark.py:1252-1265 | after the loop, scoring the pending turn with nothing after it completes the session's totals |
| Replay.TrimToRecent | benchmarks/claude_session_mode_benchmark.py:455-465 | the latest turns, as many as asked for and there are; no positive limit keeps all |
| Replay.RequestAt | benchmarks/claude_session_mode_benchmark.py:1158-1178 | request k is a function of request k-1 and the first k+1 turns only |
| Outcomes.RequestMeaning | benchmarks/claude_session_mode_benchmark.py:805-862 | request by request: the conversation is everything said so far, its running count takes each message at its own turn's tokenizer, and what is forwarded is the previous forwarded request, its answer and the new input, which cache mode sends through the pipeline and baseline as it is |
| Outcomes.WarmIffInTime | benchmarks/claude_session_mode_benchmark.py:921-929 | a turn is eligible exactly when there is one before it and the gap between their timestamps is at most the TTL |
| Outcomes.CountersCount | benchmarks/claude_session_mode_benchmark.py:971-1205 | each of the nine turn counters is the number of turns meeting its condition, said of timestamps, forwarded requests, the raw conversation and the messages that were there before the turn |
| Outcomes.SplitMeaning | benchmarks/claude_session_mode_benchmark.py:969-993 | a turn in time reads the most tokens any common prefix with the previous request has; followed in time, it has read or written the most it shares with either neighbour, also when the next request busts; output and raw figures are the turn's own |
| Outcomes.CostMeaning | benchmarks/claude_session_mode_benchmark.py:932-1000 | a turn's four costs are its token counts at the model's listed or fallback prices per million, reads at a tenth and writes at the multiplier of the input price, and the total is their sum |
| ReplayLaws.CacheModeKeepsExchange | benchmarks/claude_session_mode_benchmark.py:680-695 | in cache mode (and baseline), for every pipeline function, the previous forwarded request followed by the assistant's answer is a prefix of the next forwarded request |
| ReplayLaws.CacheModeNeverBusts | benchmarks/claude_session_mode_benchmark.py:843-862 | for every session and every pipeline function a cache-mode run ends with no bust turns and no busting rewrites |
| ReplayLaws.NoBustsIff | benchmarks/claude_session_mode_benchmark.py:971-983 | the bust counter is zero exactly when every request sent within the TTL starts with all of its predecessor |
| ReplayLaws.RewritesWithinCache | benchmarks/claude_session_mode_benchmark.py:1179-1205 | busting rewrites never exceed bust turns, and stable rewrites plus bust turns never exceed eligible turns, although the two counters are kept one turn apart |
| ReplayLaws.TokensConserved | benchmarks/claude_session_mode_benchmark.py:969-1007 | read + write + regular = forwarded over any part of any run, none of them negative |
| ReplayLaws.TurnsAccounted | benchmarks/claude_session_mode_benchmark.py:971-983 | every turn but the first is either eligible or expired |
| ReplayLaws.RewritesAccounted | benchmarks/claude_session_mode_benchmark.py:1179-1205 | rewrites are both retroactive + latest-only and stable + busting + non-eligible |
| ReplayLaws.SessionLawful | benchmarks/claude_session_mode_benchmark.py:1137-1267 | a finished session obeys all the counter laws if and only if it has a turn |
| ReplayLaws.MergedLawful | benchmarks/claude_session_mode_benchmark.py:1016-1038 | merging any number of summaries that obey the counter laws gives one that does |
| ReplayLaws.WriteIsReadBack | benchmarks/claude_session_mode_benchmark.py:986-992 | on one model, what a turn writes ahead is at most what the next turn reads |
| ReplayLaws.WritesAtMostReads | benchmarks/claude_session_mode_benchmark.py:969-1000 | for any forwarded sequence on one model, a session's cache writes are at most its cache reads |
| ReplayLaws.CostsFactor | benchmarks/claude_session_mode_benchmark.py:994-1013 | on one model, summing turn costs and pricing the summed tokens agree |
| ReplayLaws.CachingNeverCostsMore | benchmarks/claude_session_mode_benchmark.py:932-1013 | with a write multiplier up to 1.9, a one-model session in any mode never costs more than sending all forwarded tokens uncached |
| ReplayLaws.WriteMultiplierBound | benchmarks/claude_session_mode_benchmark.py:932-1013 | 1.9 is exact for replayed sessions: in baseline, and in cache mode with any pipeline, no one-model session loses by caching if and only if the multiplier is at most 1.9 |
| ReplayLaws.MultiplierShowsIff | benchmarks/claude_session_mode_benchmark.py:932-1013 | for non-negative prices, two write multipliers give a session the same totals if and only if they are equal or no written token costs anything |
| ReplayLaws.GrowingSplit | benchmarks/claude_session_mode_benchmark.py:969-994 | in a session whose requests grow, a turn in time reads its whole predecessor and a late one nothing, and a turn followed in time writes everything it did not read |
| ReplayLaws.GrowingTelescopes | benchmarks/claude_session_mode_benchmark.py:969-1000 | for any growing one-model session and any part of it, writes plus regular tokens equal the latest request's message tokens, one overhead per turn, and the predecessor's tokens of every turn whose gap expired |
| ReplayLaws.ReplayTelescopes | benchmarks/claude_session_mode_benchmark.py:1158-1265 | so for every one-model cache-mode or baseline replay, whatever its gaps; this is the final request's own count if and only if nothing expired and there is one turn or no overhead |
| ReplayLaws.CacheModeTelescopes | benchmarks/claude_session_mode_benchmark.py:1158-1265 | in a warm one-model cache-mode session every turn but the last pays the regular rate for the tokenizer's fixed overhead only; writes plus regular tokens equal the final request's message tokens plus one overhead per turn, which is the final request's own count if and only if there is one turn or no overhead |
| ReplayLaws.OverheadPaidTwice | benchmarks/claude_session_mode_benchmark.py:1158-1265 | with the overhead of 3 a warm session of two answers pays for three tokens more than its final request has |
| ReplayLaws.NoCacheOmitsWrites | benchmarks/claude_session_mode_benchmark.py:128-132 | the no-cache total plus written tokens at the input rate equals forwarded tokens at the input rate plus output cost, for any mix of models |
| ReplayLaws.SessionPricedLawful | benchmarks/claude_session_mode_benchmark.py:128-132 | a one-model session satisfies the no-cache identity and writes at most what it reads, at any prices and any multiplier |
| ReplayLaws.MergedPricedLawful | benchmarks/claude_session_mode_benchmark.py:1016-1038 | both survive merging any number of one-model summaries |
| ReplayLaws.MergedWorthCaching | benchmarks/claude_session_mode_benchmark.py:1016-1038 | and so does costing no more than sending everything uncached |
| Corpus.LoadedWhole | benchmarks/claude_session_mode_benchmark.py:1270-1286 | a recording loads, as the turns of its events and under its id, exactly when it has an assistant event |
| Corpus.CacheModeOnAnyCorpus | benchmarks/claude_session_mode_benchmark.py:1375-1474 | for any set of transcripts and any pipeline function, grouping, trimming, cache-mode replay and merging give an aggregate with no busts that obeys the counter laws |
| Corpus.QuietPipelineOnAnyCorpus | benchmarks/claude_session_mode_benchmark.py:1375-1474 | with a pipeline that passes one or two messages through, cache mode and baseline give the same aggregate for any set of transcripts |
| Prefix.CommonPrefixTokens | benchmarks/claude_session_mode_benchmark.py:646-656 | the tokens of the longest common prefix, on either list; all of the previous list when it is a prefix |
| Prefix.FirstDiffIndex | benchmarks/cache_bust_trace_report.py:55-61 | none for equal lists, otherwise the length of the longest common prefix |
| Prefix.DiffIndexMeaning | benchmarks/cache_bust_trace_report.py:55-61 | the index is below the previous list's length if and only if the previous list is not a prefix of the current one |
| Accounting.SplitTokens | benchmarks/claude_session_mode_benchmark.py:969-993 | the read/write/regular split; the clipping at zero around the regular part never clips |
| Accounting.SplitFits | benchmarks/claude_session_mode_benchmark.py:986-993 | reads and writes fit in the request's message tokens, leaving at least the overhead |
| Accounting.RewriteScopeMeaning | benchmarks/claude_session_mode_benchmark.py:659-677 | a rewrite is retroactive exactly when it does not keep the messages that were there before the turn, or is shorter than their stated number, for any such number |
| Accounting.ModeSummary.ApplyTurnMetrics | benchmarks/claude_session_mode_benchmark.py:955-1013 | adds one turn's split, cost and cache state to the summary and touches nothing else |
| Accounting.ModeSummary.RecordRewrite | benchmarks/claude_session_mode_benchmark.py:1179-1205 | adds one turn's rewrite class and touches nothing else |
| Accounting.ModeSummary.Merge | benchmarks/claude_session_mode_benchmark.py:1016-1038 | the summary becomes the field-wise sum, also when merged into itself |
| BustDetectors.BuildBustEvents | benchmarks/synthetic_token_cache_bust_report.py:136-197 | the direct detector lists one event per bust of the same request sequence, in order |
| BustDetectors.DivergentIndex | benchmarks/synthetic_token_cache_bust_report.py:159-168 | the scan stops at the length of the longest common prefix |
| BustDetectors.DirectCountsBusts | benchmarks/synthetic_token_cache_bust_report.py:149-177 | the direct detector's event count equals the lagged simulator's bust counter |
| Outcomes.DirectEventsMeaning | benchmarks/synthetic_token_cache_bust_report.py:149-177 | the direct detector's events are the busted turns, one each and in order, with both request ids, both requests and the place where they part |
| BustDetectors.TraceSession | benchmarks/cache_bust_trace_report.py:137-206 | one session's trace: the busts of all turns but the last, cut off when the cap is reached |
| BustDetectors.TraceMode | benchmarks/cache_bust_trace_report.py:119-206 | the trace of all sessions in order, each compressed as the sessions before it left the shared proxy, cut to the cap, and to one event for caps below one |
| BustDetectors.TraceMatchesDirect | benchmarks/cache_bust_trace_report.py:149-178 | event by event the trace and the direct detector name the same request, divergence index and message, and the index is below the previous request's length |
| BustDetectors.TraceMissesOnlyLastBust | benchmarks/cache_bust_trace_report.py:149-206 | the trace has all the simulator's busts except one on the session's last turn |
| Outcomes.SessionTraceMeaning | benchmarks/cache_bust_trace_report.py:149-206 | a session's trace lists the busted turns but the last, in order, with lengths, the messages at the difference and whether the rewrite reached back |
| BustDetectors.CacheModeTracesNothing | benchmarks/cache_bust_trace_report.py:119-206 | in cache mode neither detector ever reports anything |
| BustDetectors.CacheModeTracesNothingAnywhere | benchmarks/cache_bust_trace_report.py:119-206 | nor does the trace of any number of sessions that share a proxy |
| Checkpoints.CheckpointRoundTrip | benchmarks/claude_session_mode_benchmark.py:236-264 | decoding a written checkpoint gives the summary back |
| Checkpoints.ReadableIff | benchmarks/claude_session_mode_benchmark.py:236-264 | a payload is readable if and only if it is part of some summary's payload, and what is decoded has everything the payload has |
| Checkpoints.MissingReadsZero | benchmarks/claude_session_mode_benchmark.py:236-264 | missing numbers read as zero |
| Checkpoints.CheckpointStore.Load | benchmarks/claude_session_mode_benchmark.py:1075-1085 | a missing or corrupt file is no checkpoint; a payload without its mode or with a number that is none raises; otherwise the decoded summary under the stored mode |
| Checkpoints.CheckpointStore.Write | benchmarks/claude_session_mode_benchmark.py:1101-1108 | stores the encoded summary, its own mode included, under mode and session id and nothing else |
| Checkpoints.SumOfAdd | benchmarks/claude_session_mode_benchmark.py:1427-1437 | adding one more part to the sum gives the same result whenever it comes in |
| Checkpoints.WriteKeepsConsistentIff | benchmarks/claude_session_mode_benchmark.py:1429-1430 | storing a session's result keeps the checkpoint directory consistent if and only if no session sharing its id has other totals |
| Checkpoints.FreshRequests | benchmarks/claude_session_mode_benchmark.py:1270-1286 | a session that loads counts once, with as many requests as turns are left after trimming; one that does not counts for nothing |
| Checkpoints.DistinctIdsSuffice | benchmarks/claude_session_mode_benchmark.py:1057-1061 | distinct session ids are enough for ids to determine totals |
| Checkpoints.SerialKnown | benchmarks/claude_session_mode_benchmark.py:1438-1472 | in the serial branch an id without a checkpoint comes to stand for the first session of that id that loads |
| Checkpoints.ParallelKnown | benchmarks/claude_session_mode_benchmark.py:1395-1437 | in the parallel branch for the last session of that id to finish |
| Checkpoints.RunLeavesCheckpoints | benchmarks/claude_session_mode_benchmark.py:1395-1472 | either branch leaves a checkpoint for every session that loads |
| Checkpoints.WorkersShowIff | benchmarks/claude_session_mode_benchmark.py:1395-1472 | from any directory, serial and parallel branch use the same totals for every session if and only if sessions sharing an unstored id agree wherever the earlier of them loads |
| Checkpoints.CollisionCountsFirstTwice | benchmarks/claude_session_mode_benchmark.py:1395-1472 | for two sessions with one id and an empty directory the serial branch counts the first twice, the parallel branch each once |
| Checkpoints.CollisionShows | benchmarks/claude_session_mode_benchmark.py:1395-1472 | two sessions with one id, of two turns and of one: one worker reports four requests, more report three |
| Checkpoints.SoundAtFirst | benchmarks/claude_session_mode_benchmark.py:1375-1392 | without a directory or with an empty one, distinct ids are all that transparency takes |
| Checkpoints.TidyParts | benchmarks/claude_session_mode_benchmark.py:1395-1472 | with a consistent directory and ids that determine totals both branches use every session's own totals |
| Checkpoints.SharedDirectoryIff | benchmarks/claude_session_mode_benchmark.py:468-479 | the directory's name leaves out the write multiplier: what one run stores is right for another that differs in it if and only if the session's writes cost nothing |
| Checkpoints.SharedDirectoryFails | benchmarks/claude_session_mode_benchmark.py:468-479 | a session of two answers on a model that charges for input, for which another multiplier finds a wrong checkpoint |
| Checkpoints.RunSerial | benchmarks/claude_session_mode_benchmark.py:1438-1472 | from any directory, the serial branch raises if and only if a checkpoint of the batch cannot be read, and otherwise yields the sum of what it finds or simulates session by session; the directory it leaves is stated in both cases |
| Checkpoints.RunSession | benchmarks/claude_session_mode_benchmark.py:1440-1472 | one session: found in the directory as it then is, or simulated, stored and merged if it loads; an unreadable checkpoint raises |
| Checkpoints.RunParallel | benchmarks/claude_session_mode_benchmark.py:1395-1437 | the parallel branch raises in the same cases, before storing anything, and otherwise yields the sum of what the directory first held and fresh simulations of the rest, for any completion order, and leaves the directory in which those finished last win |
| Checkpoints.SimulateMode | benchmarks/claude_session_mode_benchmark.py:1392-1472 | checkpoints, worker count and completion order never show in a mode's summary, and the directory stays consistent, when checkpoints are right and shared ids agree; without that, when the run raises and the sum each branch yields; other modes' files are never touched |
| Checkpoints.OtherModesUntouched | benchmarks/claude_session_mode_benchmark.py:1392-1472 | a run of one mode changes neither what a batch of another mode yields from the directory nor whether it can be read |
| Checkpoints.SimulateSessionFiles | benchmarks/claude_session_mode_benchmark.py:1375-1474 | from any directory, the three modes run one after the other give what each would give alone, under its own mode, or nothing if a checkpoint of any of them cannot be read; a directory consistent with a batch stays so |
| Checkpoints.BatchCacheModeNeverBusts | benchmarks/claude_session_mode_benchmark.py:1289-1372 | the cache-mode aggregate of any batch has no busts |
| Checkpoints.BatchLawful | benchmarks/claude_session_mode_benchmark.py:1289-1372 | the aggregate of any batch of loaded sessions obeys the counter laws |
| Transcript.LoadSessionReplay | benchmarks/claude_session_mode_benchmark.py:339-452 | the event loop returns one turn per maximal assistant run, or nothing when there is none |
| Transcript.AppendUnseen | benchmarks/claude_session_mode_benchmark.py:412-416 | the block loop appends exactly the blocks whose key is new |
| Transcript.GroupingIsMaximalRuns | benchmarks/claude_session_mode_benchmark.py:350-443 | pending messages and current group together produce exactly the maximal same-request runs not interrupted by a user event |
| Transcript.RelevantPicks | benchmarks/claude_session_mode_benchmark.py:350-383 | the events that matter are exactly the user and assistant ones, in order |
| Transcript.TurnsAtStarts | benchmarks/claude_session_mode_benchmark.py:385-443 | there is one turn for each start of a run, in order |
| Transcript.TurnMeaning | benchmarks/claude_session_mode_benchmark.py:385-432 | a turn's run has one request id and ends at a user event or another id; model and time are its first event's, usage figures the run's maxima, and its message has the run's first block for each key, in order, or is an empty string |
| Transcript.BlocksMeaning | benchmarks/claude_session_mode_benchmark.py:287-292 | a non-empty string is one text block, a list yields exactly its objects with order and repeats, anything else nothing |
| Transcript.TurnsHoldAnsweredMessages | benchmarks/claude_session_mode_benchmark.py:306-336 | over a session the turns' user messages are those directly followed by an assistant event, once each and in order |
| Transcript.OneInputPerTurn | benchmarks/claude_session_mode_benchmark.py:361-400 | no turn holds more than one user message |
| Transcript.LoadsIff | benchmarks/claude_session_mode_benchmark.py:434-452 | a transcript gives turns if and only if it has an assistant event |
| Transcript.DedupMeaning | benchmarks/claude_session_mode_benchmark.py:412-416 | block de-duplication keeps exactly the first block of each key, in order |
| Transcript.RedeliveryChangesNothing | benchmarks/claude_session_mode_benchmark.py:379-432 | re-delivering an assistant event inside its own run changes no turn |
| Pipelines.ApplyHistoryPressure | benchmarks/synthetic_long_cache_suite_report.py:40-69 | all but the latest two messages have their tool results replaced by the marker, everything else is untouched |
| Pipelines.ApplyFakePipeline | benchmarks/synthetic_token_cache_bust_report.py:40-64 | tool results are replaced everywhere once there are more than two messages, otherwise nothing changes |
| Pipelines.PipelineMeaning | benchmarks/synthetic_long_cache_suite_report.py:40-69 | message by message: before the latest two, or in lists of more than two for the other pipeline, tool results get that pipeline's marker for content and keep every other key, and nothing else changes |
| Pipelines.MessageFixedIff | benchmarks/synthetic_long_cache_suite_report.py:51-68 | compression leaves a message as it is if and only if its tool results already carry the marker |
| Pipelines.HistoryPressureIdempotent | benchmarks/synthetic_long_cache_suite_report.py:40-69 | running the pipeline on its own output changes nothing |
| Pipelines.GrownKeepsPrefixIff | benchmarks/synthetic_long_cache_suite_report.py:44-68 | on a grown conversation the old output stays a prefix if and only if every message leaving the protected window is already settled |
| Pipelines.WholeHistoryBustsIff | benchmarks/synthetic_long_cache_suite_report.py:44-48 | when the whole history is reprocessed each turn, with no compression cache, a turn busts if and only if it is within the TTL and an unsettled message leaves the window |
| Pipelines.SyntheticPipelinesKeepPairs | benchmarks/synthetic_token_cache_bust_report.py:44-63 | both synthetic pipelines pass one or two messages through unchanged |
| Pipelines.CacheModeIsBaseline | benchmarks/claude_session_mode_benchmark.py:816-862 | with such a pipeline and at most two input messages per turn, cache mode sends the baseline's requests |
| Pipelines.SmallTurnsMatchBaseline | benchmarks/claude_session_mode_benchmark.py:1137-1267 | hence the same summary, with no rewrites and no busts |
| Pipelines.LoadedReplaysMatchBaseline | benchmarks/claude_session_mode_benchmark.py:339-465 | and so for every replay loaded from a transcript, trimmed or not |
| Pipelines.RawIsRecount | benchmarks/claude_session_mode_benchmark.py:1160-1163 | on one model the incrementally kept raw token count is a full recount of the conversation |
| Pipelines.BaselineForwardsRawTokens | benchmarks/claude_session_mode_benchmark.py:1243-1250 | in baseline on one model, forwarded tokens are the raw tokens plus one overhead per request |
| LastMessage.ExtractsExactlyGrowth | benchmarks/claude_session_mode_benchmark.py:698-759 | a suffix is extracted if and only if only the last message's content grew and the forwarded one has the same role and kind; it is the forwarded list and the current last message cut to what it gained |
| LastMessage.ExtractThenMerge | benchmarks/claude_session_mode_benchmark.py:698-783 | an unchanged delta merges back to the current roles and contents, and to the very same list if and only if nothing but the content changed |
| LastMessage.MergeOnlyAppends | benchmarks/claude_session_mode_benchmark.py:762-783 | a merge succeeds if and only if roles and content kinds match, and then appends exactly the delta's content to what was forwarded before |
| TtlAnalysis.TurnsOf | claude_analysis_ttl.py:45-78 | keeps each new message once, in stable time order; an exception, also from sorting times with and without a zone, loses the file's turns but not the ids it consumed |
| TtlAnalysis.ScanPicks | claude_analysis_ttl.py:48-76 | a file read to its end keeps exactly its new lines, in order: those without an id and the first with each id not used before |
| TtlAnalysis.ScanIds | claude_analysis_ttl.py:66-71 | reading consumes exactly the ids mentioned before anything raises, and keeps a turn for each that is new |
| TtlAnalysis.CountsIff | claude_analysis_ttl.py:104-110 | a file makes a session if and only if no line raises, at least two lines are new, and these do not mix times with and without a zone |
| TtlAnalysis.SortSorts | claude_analysis_ttl.py:77-78 | the result is in time order |
| TtlAnalysis.SortPermutes | claude_analysis_ttl.py:77-78 | it is a permutation |
| TtlAnalysis.SortStable | claude_analysis_ttl.py:77-78 | it keeps simultaneous turns in order |
| TtlAnalysis.NoIdTwice | claude_analysis_ttl.py:66-71 | across all files no non-empty message id is kept twice |
| TtlTally.BucketBounds | claude_analysis_ttl.py:84-95 | the buckets are the gaps from 5, 15, 30, 60 and 240 minutes on |
| TtlTally.TallySession | claude_analysis_ttl.py:113-124 | each turn lands in the bucket of its gap, the first with the first turns, and so in its column; the negative-gap skip is never taken |
| TtlTally.TallyFiles | claude_analysis_ttl.py:104-124 | for every per-model weight each bucket and each column holds exactly the turns that belong in it, over the files with at least two turns |
| TtlTally.AggregateByModel | claude_analysis_ttl.py:204-220 | there is one row per model, and the rows preserve every column under every weight |
| TtlTally.ColumnIsSlots | claude_analysis_ttl.py:208-220 | the columns are in-window, the three buckets from 5 to 60 minutes, and the rest with the first turns |
| TtlTally.SessionColumns | claude_analysis_ttl.py:208-220 | every turn of a session is in exactly one of the three columns |
| TtlTally.ColumnsConserve | claude_analysis_ttl.py:104-220 | the three columns together equal the tokens of all kept turns of the files that count |
| TtlTally.IdCountedIff | claude_analysis_ttl.py:98-110 | a message id is counted if and only if the first file to mention it is read and sorted without an exception and keeps at least two turns |
| TtlCosts.ListedPrices | claude_analysis_ttl.py:16-23 | each listed model's dollar prices, and the default for an empty name |
| TtlCosts.PriceByName | claude_analysis_ttl.py:26-36 | a model is priced at the first row whose name occurs in its part before a bracket, and at the default if there is none |
| TtlCosts.BracketIgnored | claude_analysis_ttl.py:31-31 | a bracketed suffix changes no price |
| TtlCosts.PricesProportional | claude_analysis_ttl.py:16-36 | whatever the model name, the price used has one-hour writes at 1.6 and reads at 0.08 times the five-minute price |
| TtlCosts.SignIsBalance | claude_analysis_ttl.py:291-304 | B minus A has the sign of 0.6 (in-window + over-60) - 0.92 (5-60 minutes) |
| TtlCosts.HypotheticalVerdictsAgree | claude_analysis_ttl.py:291-304 | no two single-model hypotheticals give opposite verdicts |
| TtlCosts.CostRows | claude_analysis_ttl.py:222-240 | the cost loop's totals are the columns at the matching prices |
| TtlCosts.Analyze | claude_analysis_ttl.py:98-240 | strategy A's total is every counted token at its model's five-minute price, and B minus A is the weighted balance of the columns |
| CacheMarkers.InjectCacheMarkers | benchmarks/prefix_cache_benchmark.py:399-447 | the system prompt and every strategic position are marked where possible |
| CacheMarkers.MarkPositions | benchmarks/prefix_cache_benchmark.py:428-445 | with at most three positions the early exit at four markers is never taken |
| CacheMarkers.InjectClaudeCodeMarkers | benchmarks/prefix_cache_benchmark.py:455-512 | marks the last message and, with three or more, the nearest user message before it |
| CacheMarkers.MarkMeaning | benchmarks/prefix_cache_benchmark.py:433-445 | a string becomes one text block with an ephemeral marker, a list gets the marker on its last block, and every other key and block stays |
| CacheMarkers.StrategicPositions | benchmarks/prefix_cache_benchmark.py:421-427 | the positions are the last one and, of three or more, those at one and two thirds rounded down |
| CacheMarkers.ClaudeCodePositions | benchmarks/prefix_cache_benchmark.py:477-510 | the positions are the last one and, of three or more, the last user message before it |
| CacheMarkers.BreakpointsAt | benchmarks/prefix_cache_benchmark.py:399-512 | among marker-free messages each placement puts exactly one breakpoint on each of its positions that can take one, and none elsewhere |
| CacheMarkers.MarksAreCounted | benchmarks/prefix_cache_benchmark.py:428-445 | among marker-free messages exactly the markable chosen positions gain one breakpoint each |
| CacheMarkers.AtMostFourBreakpoints | benchmarks/prefix_cache_benchmark.py:399-512 | at most four breakpoints in all for the strategic placement, at most three for Claude Code's |
| CacheMarkers.EraseRecovers | benchmarks/prefix_cache_benchmark.py:399-447 | erasing the markers gives back the system prompt and every message's content, a string counting as one text block, and every other key of a message is untouched |

## Left out

- Token mode's compression cache, prefix tracker and image compressor, and the real pipeline and proxy: any function stands for them.
- The cache branch used when delta replay is unsupported (benchmarks/claude_session_mode_benchmark.py:825-841).
- Floating-point rounding and the price lookup service: exact reals and an arbitrary price function.
- Reading files, parsing JSON lines into events, and the classification of a line as user, assistant or other.
- JSON equality where Python identifies 1, 1.0 and True.
- The numeric type errors `int(...)` could raise on malformed usage figures.
- The process pool itself; a completion order is any order of the session indices.
- `simulate_replays` as a separate member: it is the batch in which every session loads, with another default worker count.
- The event tails kept by the bust trace, and the `turns` list of a summary, which is never filled.
- The prefix tracker's updates inside the loops, which only the unmodelled modes read.
- Shared block objects: marker injection is modelled on values, so a block object appearing in two messages is not captured.
- The percentile table and medians of the TTL analysis, and all printed, Markdown and HTML reports.
- Session discovery, dataset counts, the observed-usage summary and winner selection: they list files, add up recorded usage and compare finished summaries; nothing stated here takes them as input.
- Pipelines.WholeHistoryBustsIff: the mode it speaks of runs the pipeline on the raw history; token mode first replaces tool results it compressed before (benchmarks/claude_session_mode_benchmark.py:884), so a repeated tool result does not bust there when it leaves the window.
- Checkpoints.CheckpointStore.Load: a mode that is not a string and counters that are floats or booleans raise here; the source carries such values along untyped, and what cannot be added raises when merged.
- Everything outside the files cited above.
