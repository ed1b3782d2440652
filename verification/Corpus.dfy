/** From raw transcripts to aggregates: what holds of any corpus of sessions. */
module Corpus {
  import opened Json
  import opened Accounting
  import opened Replay
  import opened ReplayLaws
  import opened Checkpoints
  import Pipelines
  import Transcript

  /** One session file's events under its id. */
  datatype Recording = Recording(id: string, events: seq<Transcript.Event>)

  /** What loading a recording gives. */
  function Load(key: Value -> string, r: Recording): SessionFile {
    var turns := Transcript.Turns(key, r.events);
    SessionFile(r.id, if turns == [] then None else Some(turns))
  }

  function LoadAll(key: Value -> string, recordings: seq<Recording>): (files: seq<SessionFile>)
    ensures |files| == |recordings| && forall i :: 0 <= i < |files| ==> files[i] == Load(key, recordings[i])
  {
    seq(|recordings|, i requires 0 <= i < |recordings| => Load(key, recordings[i]))
  }

  /** A recording loads, as the turns of its events, exactly when an assistant says something in it. */
  lemma {:induction false} LoadedWhole(key: Value -> string, r: Recording)
    ensures var file := Load(key, r);
            && file.id == r.id
            && (file.replay.Some? <==> exists i :: 0 <= i < |r.events| && r.events[i].AssistantEvent?)
            && (file.replay.Some? ==> file.replay.value == Transcript.Turns(key, r.events))
  {
    hide Transcript.Turns;
    Transcript.LoadsIff(key, r.events);
  }

  /** Every corpus, every pipeline: the cache-mode aggregate has no busts and obeys the counter laws. */
  lemma {:induction false} CacheModeOnAnyCorpus(cfg: Settings, pipeline: Pipeline, key: Value -> string,
                                                recordings: seq<Recording>, recent: Option<int>)
    ensures var total := MergeAll(Batch(cfg, Cache(pipeline), recent, LoadAll(key, recordings)).FreshParts());
            total.cache.busts == 0 && total.rewrites.busting == 0 && Lawful(total)
  {
    hide Lawful;
    hide MergeAll;
    hide Batch.Fresh;
    var b := Batch(cfg, Cache(pipeline), recent, LoadAll(key, recordings));
    BatchCacheModeNeverBusts(b, |b.sessions|);
    assert b.FreshParts()[..|b.sessions|] == b.FreshParts();
    BatchLawful(b);
  }

  /** With a pipeline that passes pairs through, cache mode and baseline cannot be told apart on any corpus. */
  lemma {:induction false} QuietPipelineOnAnyCorpus(cfg: Settings, pipeline: Pipeline, key: Value -> string,
                                                    recordings: seq<Recording>, recent: Option<int>)
    requires Pipelines.KeepsPairs(pipeline)
    ensures var files := LoadAll(key, recordings);
            MergeAll(Batch(cfg, Cache(pipeline), recent, files).FreshParts())
            == MergeAll(Batch(cfg, Baseline, recent, files).FreshParts())
  {
    hide Transcript.Turns;
    hide SessionTotals;
    hide Requests;
    var files := LoadAll(key, recordings);
    var a, b := Batch(cfg, Cache(pipeline), recent, files), Batch(cfg, Baseline, recent, files);
    forall i | 0 <= i < |files|
      ensures a.Fresh(i) == b.Fresh(i)
    {
      Pipelines.LoadedReplaysMatchBaseline(cfg, pipeline, key, recordings[i].events, recent);
    }
    assert a.FreshParts() == b.FreshParts();
  }
}
