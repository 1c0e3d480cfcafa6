/**
 * The parent process of the conversion Lambda. Its state is the trace of
 * what it has done so far; action_multiprocessing, process and
 * lambda_handler append to that trace step by step, and each is proved to
 * produce exactly the effects and outcome of its specification in Pipeline
 * and Batch.
 */
module LambdaConvert {
  import opened Wrappers
  import opened Paths
  import opened Pipeline
  import opened Batch

  /** Concatenation regroups; stated on plain sequences so that the batch loop never has to unfold a run. */
  lemma AppendAssoc(a: seq<Effect>, b: seq<Effect>, c: seq<Effect>)
    ensures a + b + c == a + (b + c)
  {
  }

  class Lambda {
    /** keep_files and os.environ['OutputBucket'], read from one environment. */
    const config: Config
    /** The parent's effects so far. */
    var trace: seq<Effect>

    constructor (environ: map<string, string>)
      ensures config == ConfigOf(environ) && trace == []
    {
      config := ConfigOf(environ);
      trace := [];
    }

    /**
     * action_multiprocessing: build one child per action, start them all,
     * then join them all. A child's exit code is recorded but never acted on.
     */
    method RunStage(actions: seq<Action>, io: ItemIO)
      modifies this
      ensures trace == old(trace) + StageEffects(actions, io)
    {
      var processes: seq<Action> := [];
      for i := 0 to |actions|
        invariant processes == actions[..i]
      {
        processes := processes + [actions[i]];
      }
      assert processes == actions;
      for i := 0 to |processes|
        invariant trace == old(trace) + Starts(processes[..i])
      {
        assert Starts(processes[..i + 1]) == Starts(processes[..i]) + [Started(processes[i])];
        trace := trace + [Started(processes[i])];
      }
      assert processes[..|processes|] == processes;
      ghost var started := trace;
      for i := 0 to |processes|
        invariant trace == started + Joins(processes[..i], io)
      {
        assert Joins(processes[..i + 1], io) == Joins(processes[..i], io) + [Joined(processes[i], ChildExit(processes[i], io))];
        trace := trace + [Joined(processes[i], ChildExit(processes[i], io))];
      }
    }

    /** process(record): the sentinel check, the metadata, then the stages. */
    method Process(rec: Record, io: ItemIO) returns (status: Status)
      modifies this
      ensures trace == old(trace) + ProcessRun(rec, config, io).trace
      ensures status == ProcessRun(rec, config, io).status
    {
      if rec.bucket.None? || rec.key.None? {
        return Raised(MissingRecordField);
      }
      var bucket, key := rec.bucket.value, rec.key.value;
      if key == SENTINEL_KEY {
        return Returned;
      }
      trace := trace + [HeadObject(bucket, key)];
      var data := GetObjectData(io.head);
      if data.Failure? {
        return Raised(data.error);
      }
      var downloadPath := DownloadPath(io.uuid, key);
      var uploadPath := UploadPath(downloadPath);
      var item := WorkItem(bucket, key, data.value, downloadPath, uploadPath);
      status := RunStages(item, io);
      AppendAssoc(old(trace), [HeadObject(bucket, key)], StagesRun(item, config, io).trace);
    }

    /** The stages of process once the work item is known. */
    method RunStages(w: WorkItem, io: ItemIO) returns (status: Status)
      modifies this
      ensures trace == old(trace) + StagesRun(w, config, io).trace
      ensures status == StagesRun(w, config, io).status
    {
      ghost var downloaded := StageEffects(DownloadStage(w), io);
      RunStage([Download(w.bucket, w.key, w.downloadPath)], io);

      var stage := [ConvertWithRetry(w.downloadPath, w.data.targetformat)];
      if !config.keepFiles {
        stage := stage + [DeleteObject(w.bucket, w.key)];
      }
      assert stage == ConvertStage(w, config.keepFiles);
      RunStage(stage, io);
      AppendAssoc(old(trace), downloaded, StageEffects(stage, io));
      ghost var converted := downloaded + StageEffects(stage, io);

      if config.outputBucket.None? {
        return Raised(MissingOutputBucket);
      }
      var metadata := map[CONVERSIONID := w.data.conversionid, SOURCEFILEID := w.data.sourcefileid];
      var publish := [Upload(w.uploadPath, config.outputBucket.value, w.key, metadata), RemoveFile(w.downloadPath)];
      assert publish == PublishStage(w, config.outputBucket.value);
      RunStage(publish, io);
      AppendAssoc(old(trace), converted, StageEffects(publish, io));

      trace := trace + [RemovedLocal(w.uploadPath)];
      AppendAssoc(old(trace), converted + StageEffects(publish, io), [RemovedLocal(w.uploadPath)]);
      if !io.outputPresent {
        return Raised(OutputFileMissing(w.uploadPath));
      }
      return Returned;
    }

    /**
     * lambda_handler(event): process every record, keep the last error, and
     * raise it once all records have been attempted.
     */
    method Handle(event: Invocation, io: nat -> ItemIO) returns (status: Status)
      modifies this
      ensures trace == old(trace) + HandlerRun(event, config, io).trace
      ensures status == HandlerRun(event, config, io).status
    {
      if event.records.None? {
        return Raised(MissingRecords);
      }
      var records := event.records.value;
      var lastException: Option<Error> := None;
      ghost var runs: seq<Run> := [];
      ghost var initial := trace;
      for i := 0 to |records|
        invariant runs == BatchRuns(records[..i], config, io)
        invariant trace == initial + Traces(runs)
        invariant lastException == LastError(runs)
      {
        ghost var run := ProcessRun(records[i], config, io(i));
        var s := Process(records[i], io(i));
        BatchStep(records, config, io, i);
        AppendAssoc(initial, Traces(runs), run.trace);
        if s.Raised? {
          lastException := Some(s.error);
        }
        runs := runs + [run];
      }
      assert records[..|records|] == records;
      assert HandlerRun(event, config, io) ==
        Run(Traces(runs), if lastException.None? then Returned else Raised(lastException.value));
      if lastException.Some? {
        return Raised(lastException.value);
      }
      return Returned;
    }
  }
}
