/**
 * The batch driver (lambda_handler) as a specification: every record is
 * processed in order, a failing record does not stop the ones after it, and
 * the invocation raises the last record's error if any record failed.
 */
module Batch {
  import opened Wrappers
  import opened Pipeline

  /** The invocation payload; event['Records'] may be missing. */
  datatype Invocation = Invocation(records: Option<seq<Record>>)

  /** The run of process on each record; io(i) is what the world does for the i-th record. */
  function BatchRuns(records: seq<Record>, cfg: Config, io: nat -> ItemIO): (runs: seq<Run>)
    ensures |runs| == |records|
  {
    if |records| == 0 then []
    else
      var n := |records| - 1;
      BatchRuns(records[..n], cfg, io) + [ProcessRun(records[n], cfg, io(n))]
  }

  /** The i-th run is process applied to the i-th record. */
  lemma {:induction false} BatchRunsAt(records: seq<Record>, cfg: Config, io: nat -> ItemIO)
    ensures forall i :: 0 <= i < |records| ==> BatchRuns(records, cfg, io)[i] == ProcessRun(records[i], cfg, io(i))
  {
    if |records| > 0 {
      var n := |records| - 1;
      BatchRunsAt(records[..n], cfg, io);
      forall i | 0 <= i < n ensures BatchRuns(records, cfg, io)[i] == ProcessRun(records[i], cfg, io(i)) {
        assert records[..n][i] == records[i];
      }
    }
  }

  /** The parent's effects for a sequence of runs, one run after the other. */
  function Traces(runs: seq<Run>): seq<Effect> {
    if |runs| == 0 then [] else Traces(runs[..|runs| - 1]) + runs[|runs| - 1].trace
  }

  /** last_exception after the loop: the error of the last run that raised. */
  function LastError(runs: seq<Run>): Option<Error> {
    if |runs| == 0 then None
    else match runs[|runs| - 1].status
      case Raised(e) => Some(e)
      case Returned => LastError(runs[..|runs| - 1])
  }

  /** One more record: its run is appended, its trace follows the others, and its error, if any, becomes the last one. */
  lemma BatchStep(records: seq<Record>, cfg: Config, io: nat -> ItemIO, i: nat)
    requires i < |records|
    ensures var run := ProcessRun(records[i], cfg, io(i));
      var runs := BatchRuns(records[..i], cfg, io);
      BatchRuns(records[..i + 1], cfg, io) == runs + [run] &&
      Traces(runs + [run]) == Traces(runs) + run.trace &&
      LastError(runs + [run]) == if run.status.Raised? then Some(run.status.error) else LastError(runs)
  {
    assert records[..i + 1][..i] == records[..i];
    var runs := BatchRuns(records[..i], cfg, io);
    var run := ProcessRun(records[i], cfg, io(i));
    assert (runs + [run])[..|runs|] == runs;
  }

  /** lambda_handler(event): the parent's effects and whether the invocation raised. */
  function HandlerRun(event: Invocation, cfg: Config, io: nat -> ItemIO): Run {
    match event.records
      case None => Run([], Raised(MissingRecords))
      case Some(records) =>
        var runs := BatchRuns(records, cfg, io);
        Run(Traces(runs), match LastError(runs) case None => Returned case Some(e) => Raised(e))
  }

  /**
   * LastError is empty exactly when no run raised; otherwise it is the error
   * of a run that raised and after which every run returned normally.
   */
  lemma {:induction false} LastErrorIsLastFailure(runs: seq<Run>)
    ensures LastError(runs).None? <==> forall i :: 0 <= i < |runs| ==> runs[i].status.Returned?
    ensures LastError(runs).Some? ==>
      exists i :: 0 <= i < |runs| && runs[i].status == Raised(LastError(runs).value) &&
        forall j :: i < j < |runs| ==> runs[j].status.Returned?
  {
    if |runs| > 0 {
      var n := |runs| - 1;
      var init := runs[..n];
      LastErrorIsLastFailure(init);
      assert forall i :: 0 <= i < n ==> init[i] == runs[i];
      if runs[n].status.Raised? {
        assert runs[n].status == Raised(LastError(runs).value);
      } else if LastError(init).Some? {
        var i :| 0 <= i < n && init[i].status == Raised(LastError(init).value) &&
          forall j :: i < j < n ==> init[j].status.Returned?;
        assert runs[i].status == Raised(LastError(runs).value);
      }
    }
  }

  /** Traces distributes over concatenation. */
  lemma {:induction false} TracesAppend(a: seq<Run>, b: seq<Run>)
    ensures Traces(a + b) == Traces(a) + Traces(b)
    decreases |b|
  {
    if |b| > 0 {
      var n := |b| - 1;
      assert (a + b)[..|a + b| - 1] == a + b[..n];
      TracesAppend(a, b[..n]);
    } else {
      assert a + b == a;
    }
  }

  /**
   * Every record is attempted, in order: the handler's trace is the traces of
   * the records before the i-th, then the i-th record's own trace, then the
   * traces of the records after it, whatever any of them raised.
   */
  lemma HandlerAttemptsEveryRecord(records: seq<Record>, cfg: Config, io: nat -> ItemIO, i: nat)
    requires i < |records|
    ensures var runs := BatchRuns(records, cfg, io);
      HandlerRun(Invocation(Some(records)), cfg, io).trace ==
        Traces(runs[..i]) + ProcessRun(records[i], cfg, io(i)).trace + Traces(runs[i + 1..])
  {
    var runs := BatchRuns(records, cfg, io);
    BatchRunsAt(records, cfg, io);
    assert runs == runs[..i] + [runs[i]] + runs[i + 1..];
    TracesAppend(runs[..i] + [runs[i]], runs[i + 1..]);
    TracesAppend(runs[..i], [runs[i]]);
    assert Traces([runs[i]]) == runs[i].trace by {
      assert [runs[i]][..0] == [];
    }
  }

  /**
   * The invocation returns normally exactly when event['Records'] is present
   * and every record's processing returned; otherwise it raises
   * MissingRecords, or the error of a failing record after which every
   * record succeeded.
   */
  lemma HandlerStatus(event: Invocation, cfg: Config, io: nat -> ItemIO)
    ensures HandlerRun(event, cfg, io).status.Returned? <==>
      event.records.Some? &&
      forall i :: 0 <= i < |event.records.value| ==> ProcessRun(event.records.value[i], cfg, io(i)).status.Returned?
    ensures event.records.None? ==> HandlerRun(event, cfg, io) == Run([], Raised(MissingRecords))
    ensures event.records.Some? && HandlerRun(event, cfg, io).status.Raised? ==>
      var records := event.records.value;
      exists i :: 0 <= i < |records| &&
        ProcessRun(records[i], cfg, io(i)).status == HandlerRun(event, cfg, io).status &&
        forall j :: i < j < |records| ==> ProcessRun(records[j], cfg, io(j)).status.Returned?
  {
    if event.records.Some? {
      var records := event.records.value;
      var runs := BatchRuns(records, cfg, io);
      BatchRunsAt(records, cfg, io);
      assert HandlerRun(event, cfg, io).status == match LastError(runs) case None => Returned case Some(e) => Raised(e);
      LastErrorIsLastFailure(runs);
    }
  }
}
