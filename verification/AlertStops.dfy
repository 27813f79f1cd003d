/**
 * The return of `stop()` (src/api/queues/maintenanceMetrics.ts:308-330), over whole runs of module
 * AlertSink: each call returns once, at once if nothing is pending, else when everything that was
 * pending when it began has settled, or by its bound.
 */
module AlertStops {
  import opened AlertSink
  import opened Base

  /** `step` was taken after step `j` and before step `i`. */
  ghost predicate Between(steps: seq<Step>, j: nat, i: nat, step: Step)
    requires i <= |steps|
  {
    exists m | j < m < i :: steps[m] == step
  }

  lemma StopsStep(s: State, step: Step, s': State, k: nat)
    requires Enabled(s, step) && s' == Next(s, step)
    ensures |s'.stops| == |s.stops| + if step.CallStop? then 1 else 0
    ensures step.CallStop? ==> s'.stops[|s.stops|] == Stop(s.pending, if s.pending == {} then Drained else Draining)
    ensures k < |s.stops| ==>
      && s'.stops[k].snapshot == s.stops[k].snapshot
      && (s'.stops[k].result == Drained <==> s.stops[k].result == Drained || step == StopDrains(k))
      && (s'.stops[k].result == TimedOut <==> s.stops[k].result == TimedOut || step == StopExpires(k))
  {
    if step.CallSweepDegraded? || step.CallSweepRecovered? || step.CallExpiredComms? {
      var s1, key := CallIsSignalThenLaunch(s, step);
    }
  }

  /** What a `stop` call waits for, and how it returns. */
  lemma {:induction false} StopReturnsOnce(states: seq<State>, steps: seq<Step>, j: nat, i: nat, k: nat)
    requires IsExecution(states, steps) && j < i < |states|
    requires steps[j] == CallStop && k == |states[j].stops|
    ensures k < |states[i].stops| && states[i].stops[k].snapshot == states[j].pending
    ensures states[i].stops[k].result == Drained <==> states[j].pending == {} || Between(steps, j, i, StopDrains(k))
    ensures states[i].stops[k].result == TimedOut <==> Between(steps, j, i, StopExpires(k))
  {
    assert StepAt(states, steps, i - 1);
    StopsStep(states[i - 1], steps[i - 1], states[i], k);
    if i > j + 1 {
      StopReturnsOnce(states, steps, j, i - 1, k);
    }
  }

  /** A call that returns drained has seen everything it waited for settle. */
  lemma DrainedMeansSettled(states: seq<State>, steps: seq<Step>, i: nat, k: nat)
    requires IsExecution(states, steps) && i < |states| && k < |states[i].stops| && states[i].stops[k].result == Drained
    ensures forall t | t in states[i].stops[k].snapshot && t < |states[i].tasks| :: states[i].tasks[t].phase == Settled
  {
    RunKeepsInv(states, steps, i);
  }
}
