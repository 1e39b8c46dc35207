/** The bounded wait for a PowerShell run and the lines that a run writes
    to the output pane.

    The PowerShell engine is an oracle: a `ScriptRun` says after how many
    checks of the asynchronous result's completion flag the run is seen as
    complete, what the engine returns as output once the run is ended, and
    whether the engine reports errors. */
module Executor {
  import opened Formatting

  /** Sleep before each completion check, in milliseconds. */
  const PollIntervalMs: nat := 100
  /** Number of completion checks after which the wait gives up. */
  const MaxPolls: nat := 150

  /** What the engine does with one script.
      `completesAfter == Some(c)`: read number c (counting from 0) of the
      completion flag, and every later read, sees the run complete;
      `None`: the run never completes on its own. */
  datatype ScriptRun = ScriptRun(completesAfter: Option<nat>, outputs: seq<string>, hadErrors: bool)

  /** Read number `r` of the completion flag sees the run complete. Once
      complete, a run stays complete. */
  predicate CompletedAtRead(run: ScriptRun, r: nat) {
    run.completesAfter.Some? && run.completesAfter.value <= r
  }

  /** The counter the wait ends with: the index of the first check that sees
      the run complete, or the ceiling when none of the checks does. */
  function PollsWaited(run: ScriptRun): (n: nat)
    ensures n <= MaxPolls
  {
    match run.completesAfter
    case Some(c) => if c < MaxPolls then c else MaxPolls
    case None => MaxPolls
  }

  /** The first-completion description of the wait determines its counter. */
  lemma PollsWaitedUnique(run: ScriptRun, i: nat)
    requires i <= MaxPolls
    requires forall k :: 0 <= k < i ==> !CompletedAtRead(run, k)
    requires i < MaxPolls ==> CompletedAtRead(run, i)
    ensures i == PollsWaited(run)
  {
    if run.completesAfter.Some? && run.completesAfter.value < i {
      assert CompletedAtRead(run, run.completesAfter.value);
    }
  }

  /** The bounded wait: sleep, check, stop at the first check that sees the
      run complete or after `MaxPolls` checks. Returns the counter
      `i`, the time slept, and the number of completion checks made. */
  method Poll(run: ScriptRun) returns (i: nat, sleptMs: nat, checks: nat)
    ensures i <= MaxPolls && i * PollIntervalMs <= MaxPolls * PollIntervalMs
    ensures forall k :: 0 <= k < i ==> !CompletedAtRead(run, k)
    ensures i < MaxPolls ==> CompletedAtRead(run, i)
    ensures i < MaxPolls ==> sleptMs == i * PollIntervalMs + PollIntervalMs && checks == i + 1
    ensures i == MaxPolls ==> sleptMs == i * PollIntervalMs && checks == MaxPolls
  {
    i, sleptMs, checks := 0, 0, 0;
    while i < MaxPolls
      invariant i <= MaxPolls
      invariant forall k :: 0 <= k < i ==> !CompletedAtRead(run, k)
      invariant sleptMs == i * PollIntervalMs && checks == i
    {
      sleptMs := sleptMs + PollIntervalMs;
      var completed := CompletedAtRead(run, checks);
      checks := checks + 1;
      if completed {
        break;
      }
      i := i + 1;
    }
  }

  /** `[target] message`. */
  function Tagged(target: string, message: string): string {
    "[" + target + "] " + message
  }

  function StartingLine(target: string): string {
    "Starting " + target
  }

  function WaitedLine(target: string, ms: nat): string {
    Tagged(target, "waited " + NatToString(ms) + " ms for script to complete")
  }

  function ErrorsLine(target: string): string {
    Tagged(target, "errors occurred")
  }

  /** `elapsedSeconds` is the clock reading as the host prints it. */
  function DoneLine(target: string, elapsedSeconds: string): string {
    "Done " + target + ", " + elapsedSeconds + " seconds"
  }

  /** One tagged line per output item, in output order. */
  function OutputLines(target: string, outputs: seq<string>): seq<string> {
    seq(|outputs|, k requires 0 <= k < |outputs| => Tagged(target, outputs[k]))
  }

  /** Everything one run appends to the pane, in order. */
  function RunLog(target: string, run: ScriptRun, elapsedSeconds: string): seq<string> {
    [StartingLine(target), WaitedLine(target, PollsWaited(run) * PollIntervalMs)]
    + OutputLines(target, run.outputs)
    + [if run.hadErrors then ErrorsLine(target) else DoneLine(target, elapsedSeconds)]
  }

  /** Proof helper: the run's lines appended to a pane regroup as the pane
      grows one group at a time (sequence concatenation is associative).
      Kept as a lemma of its own so that the solver proves the regrouping
      apart from the method that needs it. */
  lemma AppendRunLog(pane: seq<string>, target: string, run: ScriptRun, elapsedSeconds: string)
    ensures pane + RunLog(target, run, elapsedSeconds)
      == pane + [StartingLine(target)] + [WaitedLine(target, PollsWaited(run) * PollIntervalMs)]
         + OutputLines(target, run.outputs)
         + [if run.hadErrors then ErrorsLine(target) else DoneLine(target, elapsedSeconds)]
  {
  }

  /** The order of a run's lines: the start line, the wait line, one line
      per output item, and last the error marker or the completion line. */
  lemma RunLogOrder(target: string, run: ScriptRun, elapsedSeconds: string)
    ensures var log := RunLog(target, run, elapsedSeconds);
      && |log| == |run.outputs| + 3
      && log[0] == "Starting " + target
      && log[1] == "[" + target + "] waited " + NatToString(PollsWaited(run) * PollIntervalMs) + " ms for script to complete"
      && (forall k :: 0 <= k < |run.outputs| ==> log[k + 2] == "[" + target + "] " + run.outputs[k])
      && log[|log| - 1] == (if run.hadErrors then "[" + target + "] errors occurred"
                            else "Done " + target + ", " + elapsedSeconds + " seconds")
  {
  }

  /** The number shown on the wait line reads back as the time waited, and
      that time never exceeds the 15 s ceiling. */
  lemma WaitedMsWithinCeiling(run: ScriptRun)
    ensures AllDigits(NatToString(PollsWaited(run) * PollIntervalMs))
    ensures ParseDecimal(NatToString(PollsWaited(run) * PollIntervalMs)) == PollsWaited(run) * PollIntervalMs <= 15000
  {
    ParseNatToString(PollsWaited(run) * PollIntervalMs);
  }

  /** The completion line is written exactly when the engine reports no
      errors: no other line of a run can be mistaken for it. */
  lemma {:induction false} DoneLoggedIffNoErrors(target: string, run: ScriptRun, elapsedSeconds: string)
    ensures DoneLine(target, elapsedSeconds) in RunLog(target, run, elapsedSeconds) <==> !run.hadErrors
  {
    var log := RunLog(target, run, elapsedSeconds);
    var done := DoneLine(target, elapsedSeconds);
    if run.hadErrors {
      forall k | 0 <= k < |log|
        ensures log[k][0] != 'D'
      {
        if k == 0 {
          assert log[k] == "Starting " + target;
        } else {
          var m := if k == 1 then "waited " + NatToString(PollsWaited(run) * PollIntervalMs) + " ms for script to complete"
                   else if k < |log| - 1 then run.outputs[k - 2]
                   else "errors occurred";
          assert log[k] == "[" + target + "] " + m;
        }
      }
      assert done[0] == 'D';
      assert forall k :: 0 <= k < |log| ==> log[k] != done;
    } else {
      assert log[|log| - 1] == done;
    }
  }
}
