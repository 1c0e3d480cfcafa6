/**
 * The external converter adapter (convert_file) and the retry policy around
 * it (process_convert_file). The rendering engine itself is outside the model:
 * the outcome of its k-th run within one work item is given by an oracle.
 */
module Converter {
  import opened Wrappers

  /** The LibreOffice executable the adapter runs. */
  const SOFFICE := "/usr/local/lib/libreoffice/program/soffice.bin"

  /** The engine's exit status for its known start-up race; worth one retry. */
  const RETRY_STATUS := 81

  /** The fixed non-interactive flags passed before the conversion options. */
  const FLAGS: seq<string> := ["--headless", "--invisible", "--nodefault", "--nofirststartwizard",
                               "--nolockcheck", "--nologo", "--norestore", "--writer"]

  /** How one run of the engine ended, as subprocess.run(check=True, timeout=300) sees it. */
  datatype ProcessOutcome =
    | Exited(returncode: int)  // the child exited (a negative code: killed by a signal)
    | TimedOut                 // the 300 second timeout expired

  /** The command line of one engine run. */
  function Argv(filepath: string, targetformat: string): seq<string> {
    [SOFFICE] + FLAGS + ["--convert-to", targetformat, "--outdir", "/tmp", filepath]
  }

  /** Index of the first occurrence of x in s. */
  function FirstIndex(s: seq<string>, x: string): (r: Option<nat>)
    ensures r.None? <==> x !in s
    ensures r.Some? ==> r.value < |s| && s[r.value] == x && forall k :: 0 <= k < r.value ==> s[k] != x
  {
    if |s| == 0 then None
    else if s[0] == x then Some(0)
    else match FirstIndex(s[1..], x)
      case None => None
      case Some(k) => Some(k + 1)
  }

  /** The value a reader of a command line takes for an option: the word after its first occurrence. */
  function OptionValue(argv: seq<string>, option: string): (r: Option<string>)
    ensures r.Some? ==> exists k :: 0 <= k < |argv| - 1 && argv[k] == option && argv[k + 1] == r.value
  {
    match FirstIndex(argv, option)
      case Some(k) => if k + 1 < |argv| then Some(argv[k + 1]) else None
      case None => None
  }

  /**
   * The command line carries targetformat as the value of --convert-to, /tmp
   * as the value of --outdir (unless the target format is itself the word
   * "--outdir"), and filepath last; everything before the target format is
   * the same for every file.
   */
  lemma ArgvCarriesInputs(filepath: string, targetformat: string)
    ensures var argv := Argv(filepath, targetformat);
      |argv| == 14 && argv[0] == SOFFICE && argv[1..9] == FLAGS && argv[|argv| - 1] == filepath &&
      OptionValue(argv, "--convert-to") == Some(targetformat) &&
      (targetformat != "--outdir" ==> OptionValue(argv, "--outdir") == Some("/tmp"))
    ensures forall f, t :: Argv(f, t)[..10] == Argv(filepath, targetformat)[..10]
  {
    var argv := Argv(filepath, targetformat);
    assert argv[9] == "--convert-to";
    forall k | 0 <= k < 9 ensures argv[k] != "--convert-to" {
      assert |argv[k]| != |"--convert-to"|;
    }
    var c := FirstIndex(argv, "--convert-to");
    assert c == Some(9);
    if targetformat != "--outdir" {
      assert argv[11] == "--outdir";
      forall k | 0 <= k < 11 ensures argv[k] != "--outdir" {
        assert k == 10 || |argv[k]| != |"--outdir"| || argv[k][2] != 'o';
      }
      assert FirstIndex(argv, "--outdir") == Some(11);
    }
  }

  /**
   * convert_file: 0 when the engine succeeded, the engine's own return code
   * when subprocess.run raised CalledProcessError, and None for the
   * TimeoutExpired that convert_file does not catch.
   */
  function ConvertFile(outcome: ProcessOutcome): (status: Option<int>)
    ensures status.None? <==> outcome.TimedOut?
    ensures outcome.Exited? ==> status == Some(outcome.returncode)
  {
    match outcome
      case TimedOut => None
      case Exited(code) => if code == 0 then Some(0) else Some(code)
  }

  /** Why process_convert_file raised. */
  datatype ConversionError =
    | ConversionFailed(status: int)  // the first run failed with a status other than 81
    | RetryFailed(status: int)       // the first run gave 81 and the retry did not give 0
    | TimeoutExpired                 // a run timed out; the exception escapes both functions

  /** The engine runs made for one file (their command lines), and the error raised if any. */
  datatype Conversion = Conversion(runs: seq<seq<string>>, error: Option<ConversionError>)

  /**
   * process_convert_file: run the engine; on status 81 run it exactly once more.
   * engine(k) is how the k-th run of this conversion ends.
   */
  function ProcessConvertFile(downloadPath: string, targetformat: string, engine: nat -> ProcessOutcome): (c: Conversion)
    ensures 1 <= |c.runs| <= 2
    ensures forall k :: 0 <= k < |c.runs| ==> c.runs[k] == Argv(downloadPath, targetformat)
    ensures |c.runs| == 2 <==> engine(0) == Exited(RETRY_STATUS)
    ensures c.error.None? <==>
      engine(0) == Exited(0) || (engine(0) == Exited(RETRY_STATUS) && engine(1) == Exited(0))
    ensures engine(0).Exited? && engine(0).returncode != 0 && engine(0).returncode != RETRY_STATUS ==>
      c.error == Some(ConversionFailed(engine(0).returncode))
    ensures engine(0) == Exited(RETRY_STATUS) && engine(1).Exited? && engine(1).returncode != 0 ==>
      c.error == Some(RetryFailed(engine(1).returncode))
    ensures engine(0).TimedOut? || (engine(0) == Exited(RETRY_STATUS) && engine(1).TimedOut?) ==>
      c.error == Some(TimeoutExpired)
  {
    var argv := Argv(downloadPath, targetformat);
    match ConvertFile(engine(0))
      case None => Conversion([argv], Some(TimeoutExpired))
      case Some(first) =>
        if first == 0 then Conversion([argv], None)
        else if first == RETRY_STATUS then
          match ConvertFile(engine(1))
            case None => Conversion([argv, argv], Some(TimeoutExpired))
            case Some(second) =>
              Conversion([argv, argv], if second != 0 then Some(RetryFailed(second)) else None)
        else Conversion([argv], Some(ConversionFailed(first)))
  }

  /**
   * The retry policy's outcome depends only on the first two engine runs:
   * a third run is never made.
   */
  lemma NoThirdRun(path: string, targetformat: string, e1: nat -> ProcessOutcome, e2: nat -> ProcessOutcome)
    requires e1(0) == e2(0) && e1(1) == e2(1)
    ensures ProcessConvertFile(path, targetformat, e1) == ProcessConvertFile(path, targetformat, e2)
  {
  }
}
