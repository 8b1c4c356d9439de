/**
 * How `ask_with_evidence` turns the stripped output of one or two query runs
 * into the answer text and the evidence text shown beside it.
 */
module Evidence {
  import opened PyText

  /** What one query run returns: stripped stdout, stripped stderr, exit code. */
  datatype RunResult = RunResult(stdout: string, stderr: string, returncode: int)

  datatype Reply = Reply(answer: string, evidence: string)

  /** The heading put in front of diagnostic output inside the evidence. */
  const StderrLabel: string := "[stderr]\n"

  /** `"\n".join(x for x in [err1, err2] if x)`. */
  function MergeErrors(err1: string, err2: string): (m: string)
    ensures err1 == "" ==> m == err2
    ensures err2 == "" ==> m == err1
    ensures err1 != "" && err2 != "" ==> m == err1 + "\n" + err2
  {
    NonEmptyPair(err1, err2);
    JoinPair("\n", err1, err2);
    Join("\n", NonEmpty([err1, err2]))
  }

  /** The two-run fold: the concise run gives the answer, the full run the
    * evidence, and any stderr is appended under a label. */
  function FoldTwoRuns(concise: RunResult, full: RunResult): Reply {
    var merged := MergeErrors(concise.stderr, full.stderr);
    Reply(concise.stdout,
          if merged != "" then Strip(full.stdout + "\n\n" + StderrLabel + merged) else full.stdout)
  }

  /** The one-run fold: the run's stdout is the answer, its stderr (if any)
    * the whole evidence. */
  function FoldOneRun(run: RunResult): Reply {
    Reply(run.stdout, if run.stderr != "" then StderrLabel + run.stderr else "")
  }

  /** A run's outputs, as the runner hands them over, are already stripped. */
  ghost predicate IsStrippedRun(run: RunResult) {
    IsStripped(run.stdout) && IsStripped(run.stderr)
  }

  /** With nothing in front of it, stripping the labelled stderr block only
    * drops the two leading newlines. */
  lemma StripLabelledBlock(merged: string)
    requires merged != "" && IsStripped(merged)
    ensures Strip("\n\n" + StderrLabel + merged) == StderrLabel + merged
  {
    var x := "\n\n" + StderrLabel + merged;
    var r := StderrLabel + merged;
    assert x[2..|x|] == r && x[..2] == "\n\n" && x[|x|..] == [];
    assert IsStripOf(r, x);
    StripOfUnique(Strip(x), r, x);
  }

  /** Behind a non-empty stripped text, the labelled stderr block survives
    * stripping unchanged. */
  lemma StripTextAndLabelledBlock(text: string, merged: string)
    requires text != "" && IsStripped(text) && merged != "" && IsStripped(merged)
    ensures Strip(text + "\n\n" + StderrLabel + merged) == text + "\n\n" + StderrLabel + merged
  {
    var x := text + "\n\n" + StderrLabel + merged;
    assert x[0] == text[0] && x[|x| - 1] == merged[|merged| - 1];
    StrippedIsFixed(x);
  }

  /** The final strip in the two-run fold only ever removes the blank lines in
    * front of the label when the full run printed nothing: both stderr texts
    * reach the evidence whole, after the full run's stdout. */
  lemma FoldTwoRunsEvidence(concise: RunResult, full: RunResult)
    requires IsStrippedRun(concise) && IsStrippedRun(full)
    ensures var merged := MergeErrors(concise.stderr, full.stderr);
      var e := FoldTwoRuns(concise, full).evidence;
      (merged == "" ==> e == full.stdout)
      && (merged != "" && full.stdout == "" ==> e == StderrLabel + merged)
      && (merged != "" && full.stdout != "" ==> e == full.stdout + "\n\n" + StderrLabel + merged)
  {
    var merged := MergeErrors(concise.stderr, full.stderr);
    if merged != "" {
      assert IsStripped(merged);
      if full.stdout == "" {
        assert full.stdout + "\n\n" + StderrLabel + merged == "\n\n" + StderrLabel + merged;
        StripLabelledBlock(merged);
      } else {
        StripTextAndLabelledBlock(full.stdout, merged);
      }
    }
  }

  /** In the two-run fold the answer is the concise run's output alone, and
    * the evidence is empty only if the full run and both stderr streams are. */
  lemma FoldTwoRunsAnswer(concise: RunResult, full: RunResult)
    requires IsStrippedRun(concise) && IsStrippedRun(full)
    ensures FoldTwoRuns(concise, full).answer == concise.stdout
    ensures FoldTwoRuns(concise, full).evidence == "" <==>
      full.stdout == "" && concise.stderr == "" && full.stderr == ""
  {
    FoldTwoRunsEvidence(concise, full);
  }

  /** In the one-run fold the evidence is empty exactly when stderr is, and
    * otherwise it is the label followed by the whole stderr text. */
  lemma FoldOneRunEvidence(run: RunResult)
    ensures var e := FoldOneRun(run).evidence;
      (e == "" <==> run.stderr == "")
      && (e != "" ==> e[..|StderrLabel|] == StderrLabel && e[|StderrLabel|..] == run.stderr)
  {
  }

  /** Neither fold looks at an exit code. */
  lemma FoldsIgnoreReturnCodes(concise: RunResult, full: RunResult, rc1: int, rc2: int)
    ensures FoldTwoRuns(concise.(returncode := rc1), full.(returncode := rc2)) == FoldTwoRuns(concise, full)
    ensures FoldOneRun(concise.(returncode := rc1)) == FoldOneRun(concise)
  {
  }
}
