/**
 * One work item: the notification record, the object metadata, the three
 * stages of child actions and the trace of what the parent process does.
 * ProcessRun is the specification that the imperative Lambda.Process meets.
 */
module Pipeline {
  import opened Wrappers
  import opened Paths
  import Converter

  /** The key the upstream application writes only to probe bucket permissions. */
  const SENTINEL_KEY := "permissions_check_file"

  /** The metadata keys get_object_data reads, in the order it reads them. */
  const TARGETFORMAT := "targetformat"
  const CONVERSIONID := "id"
  const SOURCEFILEID := "sourcefileid"

  /** One entry of event['Records']: record['s3']['bucket']['name'] and record['s3']['object']['key']. */
  datatype Record = Record(bucket: Option<string>, key: Option<string>)

  /** What head_object gave back: an exception, or a response whose 'Metadata' entry may be absent. */
  datatype HeadResponse = HeadRaised | Head(metadata: Option<map<string, string>>)

  /** Configuration read from the environment. */
  datatype Config = Config(keepFiles: bool, outputBucket: Option<string>)

  /** keep_files is set when KEEP_FILES is a non-empty string; OutputBucket may be unset. */
  function ConfigOf(environ: map<string, string>): (c: Config)
    ensures c.keepFiles <==> "KEEP_FILES" in environ && environ["KEEP_FILES"] != ""
    ensures c.outputBucket.Some? <==> "OutputBucket" in environ
    ensures c.outputBucket.Some? ==> c.outputBucket.value == environ["OutputBucket"]
  {
    var keep := if "KEEP_FILES" in environ then environ["KEEP_FILES"] else "";
    Config(keep != "", if "OutputBucket" in environ then Some(environ["OutputBucket"]) else None)
  }

  /** The exceptions that reach the parent process. */
  datatype Error =
    | MissingRecordField           // KeyError while reading bucket or key out of a record
    | HeadObjectFailed             // head_object raised (object gone, access denied, ...)
    | NoMetadata                   // RuntimeError: the head response has no or empty Metadata
    | MissingMetadataKey(name: string)  // KeyError on one of the three metadata keys
    | MissingOutputBucket          // KeyError on os.environ['OutputBucket']
    | OutputFileMissing(path: string)   // os.remove(upload_path) found no file
    | MissingRecords               // KeyError on event['Records']

  /** How a call ended in the parent process. */
  datatype Status = Returned | Raised(error: Error)

  /** The triple get_object_data returns. */
  datatype ObjectData = ObjectData(targetformat: string, conversionid: string, sourcefileid: string)

  /**
   * get_object_data, given head_object's response: the three metadata values,
   * or the error raised for a missing response, missing or empty Metadata, or
   * the first required key that is missing.
   */
  function GetObjectData(head: HeadResponse): (r: Result<ObjectData, Error>)
    ensures head.HeadRaised? ==> r == Failure(HeadObjectFailed)
    ensures head.Head? && (head.metadata.None? || head.metadata.value == map[]) ==> r == Failure(NoMetadata)
    ensures r.Success? <==>
      head.Head? && head.metadata.Some? &&
      TARGETFORMAT in head.metadata.value && CONVERSIONID in head.metadata.value && SOURCEFILEID in head.metadata.value
    ensures r.Success? ==> var m := head.metadata.value;
      r.value == ObjectData(m[TARGETFORMAT], m[CONVERSIONID], m[SOURCEFILEID])
    ensures head.Head? && head.metadata.Some? && head.metadata.value != map[] ==> var m := head.metadata.value;
      (TARGETFORMAT !in m ==> r == Failure(MissingMetadataKey(TARGETFORMAT))) &&
      (TARGETFORMAT in m && CONVERSIONID !in m ==> r == Failure(MissingMetadataKey(CONVERSIONID))) &&
      (TARGETFORMAT in m && CONVERSIONID in m && SOURCEFILEID !in m ==> r == Failure(MissingMetadataKey(SOURCEFILEID)))
    ensures r.Failure? && r.error.MissingMetadataKey? ==>
      head.Head? && head.metadata.Some? && r.error.name in [TARGETFORMAT, CONVERSIONID, SOURCEFILEID] &&
      r.error.name !in head.metadata.value
  {
    match head
      case HeadRaised => Failure(HeadObjectFailed)
      case Head(metadata) =>
        if metadata.None? || metadata.value == map[] then Failure(NoMetadata)
        else
          var m := metadata.value;
          if TARGETFORMAT !in m then Failure(MissingMetadataKey(TARGETFORMAT))
          else if CONVERSIONID !in m then Failure(MissingMetadataKey(CONVERSIONID))
          else if SOURCEFILEID !in m then Failure(MissingMetadataKey(SOURCEFILEID))
          else Success(ObjectData(m[TARGETFORMAT], m[CONVERSIONID], m[SOURCEFILEID]))
  }

  /** The per-item state process derives once the metadata is known. */
  datatype WorkItem = WorkItem(bucket: string, key: string, data: ObjectData,
                               downloadPath: string, uploadPath: string)

  function NewWorkItem(bucket: string, key: string, data: ObjectData, uuid: string): WorkItem {
    var download := DownloadPath(uuid, key);
    WorkItem(bucket, key, data, download, UploadPath(download))
  }

  /** An action handed to a child process by action_multiprocessing. */
  datatype Action =
    | Download(bucket: string, key: string, path: string)                // s3_client.download_file
    | ConvertWithRetry(path: string, targetformat: string)               // process_convert_file
    | DeleteObject(bucket: string, key: string)                          // s3_client.delete_object
    | Upload(path: string, bucket: string, key: string, metadata: map<string, string>)  // s3_client.upload_file
    | RemoveFile(path: string)                                           // os.remove

  /** Stage 1: fetch the source object. */
  function DownloadStage(w: WorkItem): seq<Action> {
    [Download(w.bucket, w.key, w.downloadPath)]
  }

  /** Stage 2: convert; unless files are kept, delete the source object beside it. */
  function ConvertStage(w: WorkItem, keepFiles: bool): seq<Action> {
    [ConvertWithRetry(w.downloadPath, w.data.targetformat)] +
    (if keepFiles then [] else [DeleteObject(w.bucket, w.key)])
  }

  /** The correlation metadata attached to the converted object. */
  function CorrelationMetadata(data: ObjectData): map<string, string> {
    map[CONVERSIONID := data.conversionid, SOURCEFILEID := data.sourcefileid]
  }

  /** Stage 3: publish the converted file under the original key; remove the local download. */
  function PublishStage(w: WorkItem, outputBucket: string): seq<Action> {
    [Upload(w.uploadPath, outputBucket, w.key, CorrelationMetadata(w.data)), RemoveFile(w.downloadPath)]
  }

  /**
   * What the outside world does for one work item: the fresh uuid, the
   * head_object response, how each engine run ends, which child actions other
   * than the conversion raise, and whether the converted file is at the upload
   * path when the parent removes it.
   */
  datatype ItemIO = ItemIO(uuid: string, head: HeadResponse, engine: nat -> Converter.ProcessOutcome,
                           childRaises: Action -> bool, outputPresent: bool)

  /** A child's exit code: 1 when its target raised, 0 otherwise. */
  function ChildExit(a: Action, io: ItemIO): int {
    match a
      case ConvertWithRetry(path, targetformat) =>
        if Converter.ProcessConvertFile(path, targetformat, io.engine).error.None? then 0 else 1
      case _ => if io.childRaises(a) then 1 else 0
  }

  /** What the parent process does, in order. */
  datatype Effect =
    | HeadObject(bucket: string, key: string)   // s3_client.head_object
    | Started(action: Action)                   // Process(...).start()
    | Joined(action: Action, exitcode: int)     // Process(...).join(); the exit code is never read
    | RemovedLocal(path: string)                // os.remove(upload_path) in the parent

  /** action_multiprocessing: start every action, then join every action, in list order. */
  function StageEffects(actions: seq<Action>, io: ItemIO): seq<Effect> {
    Starts(actions) + Joins(actions, io)
  }

  /**
   * A stage starts every action before it joins any: the first half of its
   * effects starts the actions in order, the second half joins them in order.
   */
  lemma StageFanOutFanIn(actions: seq<Action>, io: ItemIO)
    ensures var t := StageEffects(actions, io);
      |t| == 2 * |actions| &&
      (forall k :: 0 <= k < |actions| ==> t[k] == Started(actions[k])) &&
      (forall k :: 0 <= k < |actions| ==> t[|actions| + k] == Joined(actions[k], ChildExit(actions[k], io)))
  {
  }

  function Starts(actions: seq<Action>): seq<Effect> {
    seq(|actions|, k requires 0 <= k < |actions| => Started(actions[k]))
  }

  function Joins(actions: seq<Action>, io: ItemIO): seq<Effect> {
    seq(|actions|, k requires 0 <= k < |actions| => Joined(actions[k], ChildExit(actions[k], io)))
  }

  /** The trace and the outcome of one call of process. */
  datatype Run = Run(trace: seq<Effect>, status: Status)

  /**
   * The part of process after get_object_data: the three stages, with
   * os.environ['OutputBucket'] read between stages 2 and 3, then the removal
   * of the local output file.
   */
  function StagesRun(w: WorkItem, cfg: Config, io: ItemIO): Run {
    var converted := StageEffects(DownloadStage(w), io) + StageEffects(ConvertStage(w, cfg.keepFiles), io);
    match cfg.outputBucket
      case None => Run(converted, Raised(MissingOutputBucket))
      case Some(outputBucket) =>
        var published := converted + StageEffects(PublishStage(w, outputBucket), io) + [RemovedLocal(w.uploadPath)];
        Run(published, if io.outputPresent then Returned else Raised(OutputFileMissing(w.uploadPath)))
  }

  /** process(record): the parent's effects and whether it raised. */
  function ProcessRun(rec: Record, cfg: Config, io: ItemIO): Run {
    if rec.bucket.None? || rec.key.None? then Run([], Raised(MissingRecordField))
    else
      var bucket, key := rec.bucket.value, rec.key.value;
      if key == SENTINEL_KEY then Run([], Returned)
      else
        var head := [HeadObject(bucket, key)];
        match GetObjectData(io.head)
          case Failure(e) => Run(head, Raised(e))
          case Success(data) =>
            var stages := StagesRun(NewWorkItem(bucket, key, data, io.uuid), cfg, io);
            Run(head + stages.trace, stages.status)
  }

  predicate EndsWith<T(==)>(s: seq<T>, suffix: seq<T>) {
    |suffix| <= |s| && s[|s| - |suffix|..] == suffix
  }

  /** The actions the parent started in child processes. */
  function StartedActions(t: seq<Effect>): set<Action> {
    set k | 0 <= k < |t| && t[k].Started? :: t[k].action
  }

  lemma StartedActionsAppend(a: seq<Effect>, b: seq<Effect>)
    ensures StartedActions(a + b) == StartedActions(a) + StartedActions(b)
  {
    var ab := a + b;
    forall x | x in StartedActions(ab) ensures x in StartedActions(a) + StartedActions(b) {
      var k :| 0 <= k < |ab| && ab[k].Started? && ab[k].action == x;
      if k < |a| { assert a[k] == ab[k]; } else { assert b[k - |a|] == ab[k]; }
    }
    forall x | x in StartedActions(a) + StartedActions(b) ensures x in StartedActions(ab) {
      if x in StartedActions(a) {
        var k :| 0 <= k < |a| && a[k].Started? && a[k].action == x;
        assert ab[k] == a[k];
      } else {
        var k :| 0 <= k < |b| && b[k].Started? && b[k].action == x;
        assert ab[|a| + k] == b[k];
      }
    }
  }

  /** A stage starts exactly its own actions. */
  lemma StageStartsItsActions(actions: seq<Action>, io: ItemIO)
    ensures StartedActions(StageEffects(actions, io)) == set k | 0 <= k < |actions| :: actions[k]
  {
    var t := StageEffects(actions, io);
    StageFanOutFanIn(actions, io);
    forall x | x in StartedActions(t) ensures exists k :: 0 <= k < |actions| && actions[k] == x {
      var i :| 0 <= i < |t| && t[i].Started? && t[i].action == x;
      assert forall j :: |actions| <= j < |t| ==> t[j] == t[|actions| + (j - |actions|)];
      assert i < |actions|;
      assert actions[i] == x;
    }
    forall k | 0 <= k < |actions| ensures actions[k] in StartedActions(t) {
      assert t[k] == Started(actions[k]);
    }
  }

  /** A record naming the sentinel key is ignored: no effect, no error. */
  lemma ProcessIgnoresSentinel(rec: Record, cfg: Config, io: ItemIO)
    requires rec.bucket.Some? && rec.key == Some(SENTINEL_KEY)
    ensures ProcessRun(rec, cfg, io) == Run([], Returned)
  {
  }

  /**
   * When the metadata cannot be read, the head request is the only effect:
   * nothing is downloaded, converted, deleted or uploaded.
   */
  lemma ProcessStopsOnMetadataError(rec: Record, cfg: Config, io: ItemIO)
    requires rec.bucket.Some? && rec.key.Some? && rec.key.value != SENTINEL_KEY
    requires GetObjectData(io.head).Failure?
    ensures ProcessRun(rec, cfg, io).trace == [HeadObject(rec.bucket.value, rec.key.value)]
    ensures ProcessRun(rec, cfg, io).status == Raised(GetObjectData(io.head).error)
    ensures StartedActions(ProcessRun(rec, cfg, io).trace) == {}
  {
  }

  /**
   * process returns normally exactly when the record is well formed and either
   * names the sentinel key, or its metadata is complete, OutputBucket is set
   * and the converted file is there to be removed. In particular a failed
   * conversion does not make process raise by itself.
   */
  lemma ProcessStatus(rec: Record, cfg: Config, io: ItemIO)
    ensures ProcessRun(rec, cfg, io).status.Returned? <==>
      rec.bucket.Some? && rec.key.Some? &&
      (rec.key.value == SENTINEL_KEY ||
       (GetObjectData(io.head).Success? && cfg.outputBucket.Some? && io.outputPresent))
  {
  }

  /** The stage in which process runs each kind of action: 1 download, 2 convert and delete, 3 upload and remove. */
  function StageNumber(a: Action): nat {
    match a
      case Download(_, _, _) => 1
      case ConvertWithRetry(_, _) => 2
      case DeleteObject(_, _) => 2
      case Upload(_, _, _, _) => 3
      case RemoveFile(_) => 3
  }

  /**
   * Where an effect belongs in a work item's trace: the head request first,
   * then for each stage its starts and then its joins, the local removal last.
   */
  function Rank(e: Effect): nat {
    match e
      case HeadObject(_, _) => 0
      case Started(a) => 2 * StageNumber(a)
      case Joined(a, _) => 2 * StageNumber(a) + 1
      case RemovedLocal(_) => 8
  }

  ghost predicate InRankOrder(t: seq<Effect>) {
    forall i, j :: 0 <= i < j < |t| ==> Rank(t[i]) <= Rank(t[j])
  }

  ghost predicate RanksBetween(t: seq<Effect>, lo: nat, hi: nat) {
    forall i :: 0 <= i < |t| ==> lo <= Rank(t[i]) <= hi
  }

  lemma RankOrderAppend(a: seq<Effect>, b: seq<Effect>, lo: nat, mid: nat, hi: nat)
    requires lo <= mid <= hi
    requires InRankOrder(a) && RanksBetween(a, lo, mid)
    requires InRankOrder(b) && RanksBetween(b, mid, hi)
    ensures InRankOrder(a + b) && RanksBetween(a + b, lo, hi)
  {
    var ab := a + b;
    forall i, j | 0 <= i < j < |ab| ensures Rank(ab[i]) <= Rank(ab[j]) {
      if j < |a| {
        assert ab[i] == a[i] && ab[j] == a[j];
      } else if i >= |a| {
        assert ab[i] == b[i - |a|] && ab[j] == b[j - |a|];
      } else {
        assert ab[i] == a[i] && ab[j] == b[j - |a|];
      }
    }
    forall i | 0 <= i < |ab| ensures lo <= Rank(ab[i]) <= hi {
      if i < |a| {
        assert ab[i] == a[i];
      } else {
        assert ab[i] == b[i - |a|];
      }
    }
  }

  /** A stage whose actions all belong to stage n has its starts, then its joins. */
  lemma StageInRankOrder(actions: seq<Action>, io: ItemIO, n: nat)
    requires forall k :: 0 <= k < |actions| ==> StageNumber(actions[k]) == n
    ensures InRankOrder(StageEffects(actions, io)) && RanksBetween(StageEffects(actions, io), 2 * n, 2 * n + 1)
  {
    var t := StageEffects(actions, io);
    StageFanOutFanIn(actions, io);
    forall i | 0 <= i < |t| ensures Rank(t[i]) == if i < |actions| then 2 * n else 2 * n + 1 {
      if i >= |actions| {
        assert t[i] == t[|actions| + (i - |actions|)];
      }
    }
  }

  /** The stages' effects come in rank order, whether or not they reach stage 3. */
  lemma StagesInRankOrder(w: WorkItem, cfg: Config, io: ItemIO)
    ensures InRankOrder(StagesRun(w, cfg, io).trace) && RanksBetween(StagesRun(w, cfg, io).trace, 2, 8)
  {
    var s1, s2 := DownloadStage(w), ConvertStage(w, cfg.keepFiles);
    var t1, t2 := StageEffects(s1, io), StageEffects(s2, io);
    StageInRankOrder(s1, io, 1);
    StageInRankOrder(s2, io, 2);
    RankOrderAppend(t1, t2, 2, 3, 5);
    if cfg.outputBucket.Some? {
      var s3 := PublishStage(w, cfg.outputBucket.value);
      var t3 := StageEffects(s3, io);
      StageInRankOrder(s3, io, 3);
      RankOrderAppend(t1 + t2, t3, 2, 5, 7);
      RankOrderAppend(t1 + t2 + t3, [RemovedLocal(w.uploadPath)], 2, 7, 8);
    } else {
      RankOrderAppend(t1 + t2, [], 2, 5, 8);
    }
  }

  /**
   * The stages of a work item run one after the other, whether or not
   * OutputBucket is set: the head request comes first, every child of a stage is started before any child of
   * that stage or a later one is joined, and every child of a stage is joined
   * before any child of a later stage is started.
   */
  lemma ProcessStageOrder(rec: Record, cfg: Config, io: ItemIO)
    requires rec.bucket.Some? && rec.key.Some? && rec.key.value != SENTINEL_KEY
    requires GetObjectData(io.head).Success?
    ensures var t := ProcessRun(rec, cfg, io).trace;
      |t| > 0 && t[0] == HeadObject(rec.bucket.value, rec.key.value) &&
      (forall i, j ::
         0 <= i < |t| && 0 <= j < |t| && t[i].Started? && t[j].Joined? && StageNumber(t[i].action) <= StageNumber(t[j].action)
         ==> i < j) &&
      (forall i, j ::
         0 <= i < |t| && 0 <= j < |t| && t[i].Joined? && t[j].Started? && StageNumber(t[i].action) < StageNumber(t[j].action)
         ==> i < j)
  {
    var w := NewWorkItem(rec.bucket.value, rec.key.value, GetObjectData(io.head).value, io.uuid);
    StagesInRankOrder(w, cfg, io);
    RankOrderAppend([HeadObject(rec.bucket.value, rec.key.value)], StagesRun(w, cfg, io).trace, 0, 0, 8);
  }

  /** The actions started in stage n. */
  function ActionsOfStage(t: seq<Effect>, n: nat): set<Action> {
    set a | a in StartedActions(t) && StageNumber(a) == n
  }

  /** The actions the stages of a work item start. */
  lemma StagesStart(w: WorkItem, cfg: Config, io: ItemIO)
    ensures StartedActions(StagesRun(w, cfg, io).trace) ==
      {Download(w.bucket, w.key, w.downloadPath), ConvertWithRetry(w.downloadPath, w.data.targetformat)} +
      (if cfg.keepFiles then {} else {DeleteObject(w.bucket, w.key)}) +
      (if cfg.outputBucket.None? then {}
       else {Upload(w.uploadPath, cfg.outputBucket.value, w.key, CorrelationMetadata(w.data)), RemoveFile(w.downloadPath)})
  {
    var s1, s2 := DownloadStage(w), ConvertStage(w, cfg.keepFiles);
    var t1, t2 := StageEffects(s1, io), StageEffects(s2, io);
    StartedActionsAppend(t1, t2);
    StageStartsItsActions(s1, io);
    StageStartsItsActions(s2, io);
    assert (set i | 0 <= i < |s1| :: s1[i]) == {s1[0]};
    var deleted: set<Action> := if cfg.keepFiles then {} else {DeleteObject(w.bucket, w.key)};
    if cfg.keepFiles {
      assert (set i | 0 <= i < |s2| :: s2[i]) == {s2[0]};
    } else {
      assert (set i | 0 <= i < |s2| :: s2[i]) == {s2[0], s2[1]};
    }
    assert StartedActions(t1 + t2) == {s1[0], s2[0]} + deleted;
    if cfg.outputBucket.Some? {
      var s3 := PublishStage(w, cfg.outputBucket.value);
      var t3 := StageEffects(s3, io);
      var last := [RemovedLocal(w.uploadPath)];
      StartedActionsAppend(t1 + t2, t3);
      StartedActionsAppend(t1 + t2 + t3, last);
      StageStartsItsActions(s3, io);
      assert (set i | 0 <= i < |s3| :: s3[i]) == {s3[0], s3[1]};
      assert StartedActions(last) == {};
    }
  }

  /**
   * Which actions a complete work item runs: the download, the conversion, the
   * deletion of the source object exactly when files are not kept, the upload
   * of the upload path to OutputBucket under the original key, and the removal
   * of the download path.
   */
  lemma ProcessActions(rec: Record, cfg: Config, io: ItemIO)
    requires rec.bucket.Some? && rec.key.Some? && rec.key.value != SENTINEL_KEY
    requires GetObjectData(io.head).Success? && cfg.outputBucket.Some?
    ensures var b, k, data := rec.bucket.value, rec.key.value, GetObjectData(io.head).value;
      var down := DownloadPath(io.uuid, k);
      StartedActions(ProcessRun(rec, cfg, io).trace) ==
        {Download(b, k, down), ConvertWithRetry(down, data.targetformat),
         Upload(UploadPath(down), cfg.outputBucket.value, k, CorrelationMetadata(data)), RemoveFile(down)} +
        (if cfg.keepFiles then {} else {DeleteObject(b, k)})
  {
    var b, k, data := rec.bucket.value, rec.key.value, GetObjectData(io.head).value;
    var w := NewWorkItem(b, k, data, io.uuid);
    var head := [HeadObject(b, k)];
    StartedActionsAppend(head, StagesRun(w, cfg, io).trace);
    assert StartedActions(head) == {};
    StagesStart(w, cfg, io);
  }

  /**
   * The plan of a complete work item, stage by stage: stage 1 is only the
   * download; stage 2 the conversion, with the deletion of the source object
   * exactly when files are not kept; stage 3 the upload with the correlation
   * metadata and the removal of the download path.
   */
  lemma ProcessStagePlan(rec: Record, cfg: Config, io: ItemIO)
    requires rec.bucket.Some? && rec.key.Some? && rec.key.value != SENTINEL_KEY
    requires GetObjectData(io.head).Success? && cfg.outputBucket.Some?
    ensures var b, k, data := rec.bucket.value, rec.key.value, GetObjectData(io.head).value;
      var down := DownloadPath(io.uuid, k);
      var t := ProcessRun(rec, cfg, io).trace;
      ActionsOfStage(t, 1) == {Download(b, k, down)} &&
      ActionsOfStage(t, 2) == {ConvertWithRetry(down, data.targetformat)} + (if cfg.keepFiles then {} else {DeleteObject(b, k)}) &&
      ActionsOfStage(t, 3) == {Upload(UploadPath(down), cfg.outputBucket.value, k, CorrelationMetadata(data)), RemoveFile(down)}
  {
    ProcessActions(rec, cfg, io);
  }

  /**
   * delete_object is started exactly when KEEP_FILES is empty or unset, whether
   * or not OutputBucket is set: stage 2 runs before OutputBucket is read.
   */
  lemma SourceDeletedUnlessKept(rec: Record, environ: map<string, string>, io: ItemIO)
    requires rec.bucket.Some? && rec.key.Some? && rec.key.value != SENTINEL_KEY
    requires GetObjectData(io.head).Success?
    ensures DeleteObject(rec.bucket.value, rec.key.value) in StartedActions(ProcessRun(rec, ConfigOf(environ), io).trace) <==>
      ("KEEP_FILES" !in environ || environ["KEEP_FILES"] == "")
  {
    if "OutputBucket" in environ {
      ProcessActions(rec, ConfigOf(environ), io);
    } else {
      ProcessWithoutOutputBucket(rec, ConfigOf(environ), io);
    }
  }

  /**
   * The converted file is published with exactly the correlation metadata
   * {id, sourcefileid} read from the source object, from a local path ending
   * in ".pdf" whatever the target format, and that path is removed last.
   */
  lemma ProcessPublishes(rec: Record, cfg: Config, io: ItemIO)
    requires rec.bucket.Some? && rec.key.Some? && rec.key.value != SENTINEL_KEY
    requires GetObjectData(io.head).Success? && cfg.outputBucket.Some?
    ensures var data := GetObjectData(io.head).value;
      var m := CorrelationMetadata(data);
      m.Keys == {CONVERSIONID, SOURCEFILEID} && m[CONVERSIONID] == io.head.metadata.value[CONVERSIONID] &&
      m[SOURCEFILEID] == io.head.metadata.value[SOURCEFILEID]
    ensures var up := UploadPath(DownloadPath(io.uuid, rec.key.value));
      var data := GetObjectData(io.head).value;
      Upload(up, cfg.outputBucket.value, rec.key.value, CorrelationMetadata(data)) in StartedActions(ProcessRun(rec, cfg, io).trace) &&
      EndsWith(up, ".pdf") && EndsWith(ProcessRun(rec, cfg, io).trace, [RemovedLocal(up)])
  {
    UploadPathShape(io.uuid, rec.key.value);
    ProcessActions(rec, cfg, io);
  }

  /**
   * A conversion that fails inside its child process is not noticed: its
   * child is joined with exit code 1 and the upload and clean-up stage still
   * runs.
   */
  lemma ConversionFailureDoesNotStopStages(rec: Record, cfg: Config, io: ItemIO)
    requires rec.bucket.Some? && rec.key.Some? && rec.key.value != SENTINEL_KEY
    requires GetObjectData(io.head).Success? && cfg.outputBucket.Some?
    requires var down := DownloadPath(io.uuid, rec.key.value);
      Converter.ProcessConvertFile(down, GetObjectData(io.head).value.targetformat, io.engine).error.Some?
    ensures var b, k, data := rec.bucket.value, rec.key.value, GetObjectData(io.head).value;
      var down := DownloadPath(io.uuid, k);
      var run := ProcessRun(rec, cfg, io);
      Joined(ConvertWithRetry(down, data.targetformat), 1) in run.trace &&
      Upload(UploadPath(down), cfg.outputBucket.value, k, CorrelationMetadata(data)) in StartedActions(run.trace) &&
      (run.status.Returned? <==> io.outputPresent)
  {
    var b, k, data := rec.bucket.value, rec.key.value, GetObjectData(io.head).value;
    var w := NewWorkItem(b, k, data, io.uuid);
    var s2 := ConvertStage(w, cfg.keepFiles);
    var t2 := StageEffects(s2, io);
    StageFanOutFanIn(s2, io);
    assert ChildExit(s2[0], io) == 1;
    assert t2[|s2|] == Joined(s2[0], 1);
    ProcessActions(rec, cfg, io);
  }

  /**
   * Without OutputBucket in the environment, stages 1 and 2 run (the download
   * and the conversion are started, and the source object may already be
   * deleted) and process raises before stage 3.
   */
  lemma ProcessWithoutOutputBucket(rec: Record, cfg: Config, io: ItemIO)
    requires rec.bucket.Some? && rec.key.Some? && rec.key.value != SENTINEL_KEY
    requires GetObjectData(io.head).Success? && cfg.outputBucket.None?
    ensures var b, k, data := rec.bucket.value, rec.key.value, GetObjectData(io.head).value;
      var down := DownloadPath(io.uuid, k);
      var run := ProcessRun(rec, cfg, io);
      Download(b, k, down) in StartedActions(run.trace) &&
      ConvertWithRetry(down, data.targetformat) in StartedActions(run.trace)
    ensures var run := ProcessRun(rec, cfg, io);
      run.status == Raised(MissingOutputBucket) &&
      (forall a :: a in StartedActions(run.trace) ==> !a.Upload? && !a.RemoveFile?) &&
      (DeleteObject(rec.bucket.value, rec.key.value) in StartedActions(run.trace) <==> !cfg.keepFiles)
  {
    var w := NewWorkItem(rec.bucket.value, rec.key.value, GetObjectData(io.head).value, io.uuid);
    var head := [HeadObject(rec.bucket.value, rec.key.value)];
    StartedActionsAppend(head, StagesRun(w, cfg, io).trace);
    assert StartedActions(head) == {};
    StagesStart(w, cfg, io);
  }
}
