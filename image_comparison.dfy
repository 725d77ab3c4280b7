/** What `compareImages` makes of the finished run of the external
    `compare -metric ae <expected> <processed> null:` process. The process
    itself is not modelled: its result record is the input. */
module ImageComparison {
  import opened JsStrings

  /** The launch error of `spawnSync`, with its `code` property. */
  datatype SpawnError = SpawnError(code: Option<string>)

  /** The record `spawnSync` returns: the exit status (`None` for null, as
      when the process could not be started or was killed), the launch
      error if any, and the captured output streams as text. */
  datatype SpawnResult = SpawnResult(
    status: Option<int>,
    error: Option<SpawnError>,
    stdout: string,
    stderr: string)

  /** `isCommandNotFound`: the shell's "command not found" status 127, or a
      launch error whose code is `ENOENT`. */
  predicate IsCommandNotFound(result: SpawnResult): (r: bool)
    ensures result.status == Some(127) ==> r
    ensures r ==> result.status == Some(127) || result.error.Some?
    ensures result.error == None ==> (r <==> result.status == Some(127))
  {
    result.status == Some(127) ||
    (result.error.Some? && result.error.value.code == Some("ENOENT"))
  }

  /** The outcomes of a comparison: the two configuration failures raised
      through `chai.assert`, and the boolean `compareImages` returns. */
  datatype Comparison =
    | CommandNotFound
    | OutputUnparseable(allOutput: string)
    | Compared(isSame: bool)

  /** Everything the tool printed, standard output first. */
  function AllOutput(result: SpawnResult): (s: string) {
    result.stdout + result.stderr
  }

  /** The post-spawn part of `compareImages`. `comparisonThreshold` is
      accepted but has no effect: the tolerance it was meant to enable is
      commented out in the source. */
  function CompareImages(result: SpawnResult, comparisonThreshold: Option<real>): (c: Comparison)
    ensures c == CommandNotFound <==> IsCommandNotFound(result)
    ensures c.OutputUnparseable? <==>
      !IsCommandNotFound(result) && result.status == Some(0) && ParseInt(AllOutput(result)) == None
    ensures c.OutputUnparseable? ==> c.allOutput == result.stdout + result.stderr
    ensures c == Compared(true) <==>
      !IsCommandNotFound(result) && result.status == Some(0) && ParseInt(AllOutput(result)) == Some(0)
    ensures !IsCommandNotFound(result) && result.status != Some(0) ==> c == Compared(false)
  {
    if IsCommandNotFound(result) then CommandNotFound
    else if result.status != Some(0) then Compared(false)
    else
      var allOutput := result.stdout + result.stderr;
      match ParseInt(allOutput)
      case None => OutputUnparseable(allOutput)
      case Some(pixelError) => Compared(pixelError == 0)
  }

  /** The threshold never changes the outcome of a comparison. */
  lemma ThresholdIgnored(result: SpawnResult, t1: Option<real>, t2: Option<real>)
    ensures CompareImages(result, t1) == CompareImages(result, t2)
  {
  }

  /** The tool exits 0 and reports `n` differing pixels (after any
      whitespace, on either stream): a match exactly when `n` is 0. */
  lemma ReportedPixelCount(ws: string, n: nat, tail: string, t: Option<real>)
    requires forall i :: 0 <= i < |ws| ==> IsJsWhitespace(ws[i])
    requires tail == [] || !IsDecimalDigit(tail[0])
    requires n == 0 ==> tail == [] || (tail[0] != 'x' && tail[0] != 'X')
    ensures CompareImages(SpawnResult(Some(0), None, ws + Decimal(n), tail), t) == Compared(n == 0)
    ensures CompareImages(SpawnResult(Some(0), None, "", ws + Decimal(n) + tail), t) == Compared(n == 0)
  {
    var printed := ws + Decimal(n) + tail;
    ParseDecimal(ws, n, tail);
    var r1 := SpawnResult(Some(0), None, ws + Decimal(n), tail);
    assert AllOutput(r1) == printed;
    ParsedOutput(r1, t, n);
    var r2 := SpawnResult(Some(0), None, "", printed);
    assert AllOutput(r2) == printed;
    ParsedOutput(r2, t, n);
  }

  lemma ParsedOutput(result: SpawnResult, t: Option<real>, n: int)
    requires result.status == Some(0) && result.error == None
    requires ParseInt(AllOutput(result)) == Some(n)
    ensures CompareImages(result, t) == Compared(n == 0)
  {
  }

  /** An exit-0 run whose output holds no decimal digit (an error message
      of the tool, say) is a tool-output error, not a mismatch. */
  lemma NonNumericOutput(result: SpawnResult, t: Option<real>)
    requires result.status == Some(0) && result.error == None
    requires forall i :: 0 <= i < |AllOutput(result)| ==> !IsDecimalDigit(AllOutput(result)[i])
    ensures CompareImages(result, t) == OutputUnparseable(AllOutput(result))
  {
    ParseNoDigits(AllOutput(result));
  }

  /** A run that exits 0 printing the tool's own error text is reported as
      unparseable output. */
  lemma ErrorTextIsUnparseable(t: Option<real>)
    ensures CompareImages(SpawnResult(Some(0), None, "", "compare: unable to open image"), t).OutputUnparseable?
  {
    var r := SpawnResult(Some(0), None, "", "compare: unable to open image");
    assert AllOutput(r) == "compare: unable to open image";
    NonNumericOutput(r, t);
  }

  /** The message of each failure raised through `chai.assert`, for the
      configured comparison command: both name the command, and the
      unparseable-output one ends with everything the tool printed. */
  function FailureMessage(command: string, c: Comparison): (m: Option<string>)
    ensures c.Compared? <==> m == None
    ensures m.Some? ==> |m.value| >= 5 + |command| && m.value[..5 + |command|] == "the '" + command
    ensures c.OutputUnparseable? ==>
      m.Some? && |m.value| >= |c.allOutput| && m.value[|m.value| - |c.allOutput|..] == c.allOutput
  {
    match c
    case CommandNotFound =>
      var msg := "the '" + command + "' command was not found, ('compare' is provided by imagemagick)";
      assert msg[..5 + |command|] == "the '" + command;
      Some(msg)
    case OutputUnparseable(allOutput) =>
      var msg := "the '" + command + "' command output could not be parsed, should be an integer, got: " + allOutput;
      assert msg[..5 + |command|] == "the '" + command;
      assert msg[|msg| - |allOutput|..] == allOutput;
      Some(msg)
    case Compared(_) => None
  }
}
