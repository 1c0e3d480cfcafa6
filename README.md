# lambdaconvert in Dafny

This project models the AWS Lambda function in `lambda/lambdaconvert.py`.
The function receives S3 notifications, and for each uploaded document it:

1. reads the document's metadata;
2. downloads the document to `/tmp`;
3. converts it with LibreOffice (`soffice.bin`), retrying once on exit status 81;
4. deletes the source object unless `KEEP_FILES` is set to a non-empty value; the deletion runs in a child process beside the conversion, whatever the conversion's outcome, not after it;
5. uploads the converted file to `OutputBucket` with the correlation metadata `{id, sourcefileid}`;
6. cleans up the local files.

The outside world is replaced by values:

- The `head_object` response is an input.
- The k-th LibreOffice run's outcome is an oracle `engine: nat -> ProcessOutcome`.
- The failure of each child action other than the conversion is an oracle `childRaises`; the conversion child's outcome comes from `engine` through the retry policy.
- Whether the converted file exists when the parent removes it is a boolean `outputPresent`.
- The fresh uuid is an input.

Everything the parent process does is recorded in a trace of `Effect`s:

- a head request;
- a child started;
- a child joined, with its exit code;
- a local file removed.

Modules:

- `Wrappers`: `Option` and `Result`.
- `Paths`:
  - POSIX `os.path.splitext`, proved equal to a reference definition of "extension";
  - the download path `/tmp/<uuid><key>` and the upload path `<download path without its extension>.pdf`, with round-trip lemmas.
- `Converter`: `convert_file` and `process_convert_file`:
  - the fixed command line;
  - the mapping from process outcome to status;
  - the retry-once-on-81 policy, including how many engine runs it makes.
- `Pipeline`:
  - `get_object_data`;
  - the three stages of child actions;
  - `action_multiprocessing` as "start all, then join all";
  - `process` as the specification function `ProcessRun`, with lemmas on the sentinel key, the error paths, the actions started and the published metadata.
- `Batch`: `lambda_handler` as the specification function `HandlerRun`. Every record is processed, and the last error is raised at the end.
- `LambdaConvert`: class `Lambda`. Its field `trace` is the parent's effects so far. Its methods `RunStage` (`action_multiprocessing`), `Process`/`RunStages` (`process`) and `Handle` (`lambda_handler`) follow the source's loops and statements. Each is proved to produce exactly the trace and outcome of its specification function.

## Model

| member | source | states |
|---|---|---|
| Paths.RFind | lambda/lambdaconvert.py:184 | the result is -1 or an index holding the character, and no later index holds it (the last occurrence, as `str.rfind`) |
| Paths.ExtStart | lambda/lambdaconvert.py:184 | the extension starts at a '.' (or there is none), and no '.' or '/' follows it |
| Paths.SplitExt | lambda/lambdaconvert.py:184 | root + ext is the path; ext is empty or one '.' followed by neither '.' nor '/' |
| Paths.ExtensionIsExtStart | lambda/lambdaconvert.py:184 | every position that is an extension in the reference sense (last '.', no '/' after it, a named component before it) is the one splitext picks |
| Paths.ExtStartIsExtension | lambda/lambdaconvert.py:184 | whatever splitext picks is an extension in the reference sense; so leading dots of a base name never start an extension |
| Paths.SplitExtSpec | lambda/lambdaconvert.py:184 | splitext finds an extension iff the reference definition has one, and then splits exactly there |
| Paths.UploadPath | lambda/lambdaconvert.py:184-186 | definition: the splitext root of the download path followed by ".pdf"; its properties are UploadPathShape and the two round-trip lemmas |
| Paths.DownloadPath | lambda/lambdaconvert.py:181 | the download path is "/tmp/", then the uuid, then the key, with no separator between uuid and key |
| Paths.UploadPathShape | lambda/lambdaconvert.py:181-186 | the upload path stays under "/tmp/" and always ends in ".pdf", whatever the key and the target format |
| Paths.UploadPathSplitsBack | lambda/lambdaconvert.py:184-186 | splitting the upload path gives back the download path's root and ".pdf" (round trip) when that root has a named last component |
| Paths.UploadPathIsDownloadPath | lambda/lambdaconvert.py:184-186 | the upload path equals the download path iff the download path's extension is already ".pdf" |
| Paths.PdfKeyAliases | lambda/lambdaconvert.py:181-186 | for the key "a.pdf" and any uuid4 text, the upload path is the download path |
| Paths.DownloadPathSplitsBack | lambda/lambdaconvert.py:181-186 | for a uuid4 text and a key that has no '/' or whose last component holds a character other than '.' (such as "folder/file.docx"), that round trip always holds |
| Converter.Argv | lambda/lambdaconvert.py:76-91 | definition: the executable, the eight flags, --convert-to targetformat, --outdir /tmp, the file path; pinned by ArgvCarriesInputs |
| Converter.ArgvCarriesInputs | lambda/lambdaconvert.py:76-91 | the command line has 14 words: the executable, the 8 flags, targetformat as the value of --convert-to, /tmp as the value of --outdir, and the file path last; its first 10 words do not depend on the inputs |
| Converter.ConvertFile | lambda/lambdaconvert.py:95-99 | status 0 on success, the child's own return code on a non-zero exit, and no status (the exception escapes) on timeout |
| Converter.ProcessConvertFile | lambda/lambdaconvert.py:55-68 | one or two engine runs, each with the same command line; two exactly when the first exits with 81; success iff the first run gives 0, or 81 then 0; ConversionFailed(first status) for any other first status, RetryFailed(second status) when the retry fails, TimeoutExpired when a run times out |
| Converter.NoThirdRun | lambda/lambdaconvert.py:62-66 | the outcome depends only on the first two engine runs: no third run is made |
| Pipeline.ConfigOf | lambda/lambdaconvert.py:32 | keep_files holds iff KEEP_FILES is set and non-empty; OutputBucket is present iff set, with its value |
| Pipeline.GetObjectData | lambda/lambdaconvert.py:42-52 | head_object failure and absent or empty Metadata raise; success iff all of targetformat, id and sourcefileid are present, and then exactly those three values; a missing-key error names the first absent key in the order targetformat, id, sourcefileid, the one a dictionary lookup at each line raises |
| Pipeline.NewWorkItem | lambda/lambdaconvert.py:181-186 | definition: the work item's bucket, key, metadata, download path and upload path |
| Pipeline.DownloadStage | lambda/lambdaconvert.py:190-197 | definition of stage 1: the download only |
| Pipeline.ConvertStage | lambda/lambdaconvert.py:201-216 | definition of stage 2: the conversion, plus delete_object when files are not kept |
| Pipeline.CorrelationMetadata | lambda/lambdaconvert.py:220 | definition: the metadata {id, sourcefileid} put on the converted object |
| Pipeline.PublishStage | lambda/lambdaconvert.py:221-233 | definition of stage 3: the upload to OutputBucket under the original key, and the removal of the download path |
| Pipeline.ChildExit | lambda/lambdaconvert.py:117-130 | definition: a child's exit code, 1 when its target raised (for the conversion, when the retry policy ends in an error) and 0 otherwise |
| Pipeline.StageEffects | lambda/lambdaconvert.py:124-130 | definition of action_multiprocessing's effects: Starts then Joins; pinned by StageFanOutFanIn and matched by Lambda.RunStage |
| Pipeline.Starts | lambda/lambdaconvert.py:125-126 | definition: one start per action, in list order |
| Pipeline.Joins | lambda/lambdaconvert.py:129-130 | definition: one join per action, in list order, carrying the child's exit code |
| Pipeline.StageFanOutFanIn | lambda/lambdaconvert.py:124-130 | a stage's effects start every action in order, then join every action in order, and nothing else |
| Pipeline.StageStartsItsActions | lambda/lambdaconvert.py:114-126 | a stage starts exactly the actions it was given |
| Pipeline.StagesRun | lambda/lambdaconvert.py:188-236 | definition: the three stages, the OutputBucket read between stages 2 and 3, and the removal of the upload path; matched by Lambda.RunStages |
| Pipeline.ProcessRun | lambda/lambdaconvert.py:165-236 | definition of process's trace and outcome; its properties are the lemmas below, and Lambda.Process is proved to match it |
| Pipeline.StageNumber | lambda/lambdaconvert.py:188-233 | definition: the stage in which process runs each kind of action (1 download; 2 convert, delete; 3 upload, remove) |
| Pipeline.ProcessIgnoresSentinel | lambda/lambdaconvert.py:175-176 | a record for permissions_check_file returns with an empty trace: no metadata fetch, no stage, no removal |
| Pipeline.ProcessStopsOnMetadataError | lambda/lambdaconvert.py:179 | when get_object_data raises, the head request is the only effect, no action is started, and that error is raised |
| Pipeline.ProcessStatus | lambda/lambdaconvert.py:165-236 | process returns normally iff the record is well formed and either is the sentinel, or has complete metadata, OutputBucket set and the converted file present |
| Pipeline.ProcessStageOrder | lambda/lambdaconvert.py:188-233 | whether or not OutputBucket is set: the head request comes first; every child of a stage is started before any child of that stage or a later one is joined, and joined before any child of a later stage is started, so stage n finishes before stage n+1 starts |
| Pipeline.ProcessStagePlan | lambda/lambdaconvert.py:188-233 | stage 1 starts only the download; stage 2 the conversion, plus delete_object exactly when files are not kept; stage 3 the upload with {id, sourcefileid} and the removal of the download path |
| Pipeline.StagesStart | lambda/lambdaconvert.py:190-233 | the stages start exactly download and convert, delete iff not keep_files, and upload and remove iff OutputBucket is set |
| Pipeline.ProcessActions | lambda/lambdaconvert.py:188-233 | a complete work item starts exactly download, convert, upload to OutputBucket under the original key, and removal of the download path, plus delete_object iff not keep_files |
| Pipeline.SourceDeletedUnlessKept | lambda/lambdaconvert.py:208-216 | delete_object is started iff KEEP_FILES is unset or empty, whether or not OutputBucket is set (whether the delete succeeds is up to the child) |
| Pipeline.ProcessPublishes | lambda/lambdaconvert.py:220-236 | an upload of the upload path to OutputBucket under the original key is started with metadata that has exactly the keys id and sourcefileid, carrying the source object's values; the uploaded path ends in ".pdf" and its removal is the last effect |
| Pipeline.ConversionFailureDoesNotStopStages | lambda/lambdaconvert.py:201-233 | a failed conversion is joined with exit code 1 and the upload stage still starts; process then returns normally iff the output file is present |
| Pipeline.ProcessWithoutOutputBucket | lambda/lambdaconvert.py:190-224 | without OutputBucket, process raises MissingOutputBucket after stages 1 and 2: the download and the conversion are started, delete_object is started iff not keep_files, and no upload or removal is started |
| Batch.BatchRuns | lambda/lambdaconvert.py:151-153 | one run per record |
| Batch.LastError | lambda/lambdaconvert.py:149-162 | definition of last_exception after the loop: the error of the last run that raised; characterised by LastErrorIsLastFailure |
| Batch.BatchRunsAt | lambda/lambdaconvert.py:151-153 | the i-th run is process applied to the i-th record with the i-th record's world |
| Batch.BatchStep | lambda/lambdaconvert.py:151-156 | one more record appends its run, appends its trace, and makes its error, if any, the last error |
| Batch.LastErrorIsLastFailure | lambda/lambdaconvert.py:154-156 | last_exception is empty iff no run raised; otherwise it is the error of a run that raised, after which every run returned |
| Batch.HandlerRun | lambda/lambdaconvert.py:133-162 | definition of lambda_handler's trace and outcome; its properties are HandlerAttemptsEveryRecord and HandlerStatus, and Lambda.Handle is proved to match it |
| Batch.HandlerAttemptsEveryRecord | lambda/lambdaconvert.py:149-156 | the handler's trace contains each record's full trace, in order, whatever the other records raised |
| Batch.HandlerStatus | lambda/lambdaconvert.py:149-162 | the handler returns iff Records is present and every record returned; a missing Records raises with no effect; otherwise it raises the error of a failing record after which every record returned |
| LambdaConvert.Lambda.constructor | lambda/lambdaconvert.py:32 | the configuration is the one read from the environment, and the trace starts empty |
| LambdaConvert.Lambda.RunStage | lambda/lambdaconvert.py:103-130 | the three loops (build, start, join) append exactly the stage's effects to the trace |
| LambdaConvert.Lambda.Process | lambda/lambdaconvert.py:165-186 | the method's new trace and status are exactly those of ProcessRun |
| LambdaConvert.Lambda.RunStages | lambda/lambdaconvert.py:188-236 | the stages, the conditional delete and the final removal append exactly StagesRun's trace and give its status |
| LambdaConvert.Lambda.Handle | lambda/lambdaconvert.py:133-162 | the loop over Records with last_exception gives exactly HandlerRun's trace and status |

## Left out

- S3 calls (`head_object`, `download_file`, `delete_object`, `upload_file`) are not performed. The head response is an input, and the other calls are actions run by child processes. What they do to the buckets and to `/tmp` is not modelled.
- The LibreOffice run is replaced by an oracle of outcomes: exit status or timeout. Not modelled: the environment copy with `HOME=/tmp`, the 300 second limit, and LibreOffice's own output-file naming. Whether the converted file is at the upload path is the `outputPresent` input.
- `multiprocessing` concurrency is not modelled. A stage starts its children in list order and then joins them in list order. Child work is atomic and invisible to the parent, except for the exit code, which the parent never reads. The unused `Pipe` ends are left out.
- `uuid.uuid4()` is an input. `Paths.IsUuidText` states its text form only where a lemma needs it.
- Logging and the logging level are left out. `int(os.environ.get('LoggingLevel', ...))` could raise `ValueError` before any record is processed; that error is not modelled.
- Environment: `keep_files` is read once at import time, and `os.environ['OutputBucket']` is read during stage 3. The model reads both from one environment map given to the constructor, so it assumes the environment does not change during an invocation.
- Exceptions are an `Error` datatype without messages. Malformed records are covered only for a missing bucket name or key. Records of the wrong shape, a non-iterable `Records` and the unused `context` are left out.
- Paths.UploadPathIsDownloadPath: for a key whose extension is ".pdf", the upload path is the download path (see also Paths.PdfKeyAliases). Stage 3 then uploads and removes the same file in two concurrent children, and the parent's own removal of the upload path races the child's removal. The model does not capture this aliasing: `childRaises(RemoveFile(...))` and `outputPresent` are independent inputs, and the children's effects on `/tmp` are not modelled.
- Converter.ArgvCarriesInputs: the claim that the value of `--outdir` is `/tmp` assumes the target format is not itself the word `--outdir`. A reader that takes an option's first occurrence would otherwise see the target format's position.
- Converter.ConvertFile: a timeout is a missing status rather than an exception. `process_convert_file` then raises `TimeoutExpired` in its child process. Like every child failure, it shows only as exit code 1.
