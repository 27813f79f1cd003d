/**
 * The counters of the alert sink (src/api/queues/maintenanceMetrics.ts), over whole runs of
 * module AlertSink: each one tells exactly how often what it names has happened.
 */
module AlertCounters {
  import opened AlertFanOut
  import opened AlertSink
  import opened Base

  predicate OfKind(s: State, t: TaskId, kind: Kind) {
    t < |s.tasks| && s.tasks[t].key.kind == kind
  }

  /** The recipient of task `t` has had this notification since the task's bound. */
  ghost predicate CurrentNotified(s: State, t: TaskId) {
    && t < |s.tasks| && s.tasks[t].next < |s.tasks[t].admins|
    && Notified(s.rows, s.tasks[t].admins[s.tasks[t].next], s.tasks[t].key, s.tasks[t].since)
  }

  /** What happens in this step, counted under `c`. */
  ghost function Occurrences(s: State, step: Step, c: Counter): int {
    match c
    case LaunchFailed => if step.AdminsReject? then 1 else 0
    case Sent(kind) => if step.CreateArrives? && OfKind(s, step.t, kind) then 1 else 0
    case FailedWrite(kind) => if (step.LookupRejects? || step.CreateRejects?) && OfKind(s, step.t, kind) then 1 else 0
    case Deduped(kind) => if step.LookupArrives? && OfKind(s, step.t, kind) && CurrentNotified(s, step.t) then 1 else 0
    case OfSweep(name, what) => SweepOccurrences(s, step, name, what)
  }

  function SweepOccurrences(s: State, step: Step, name: string, what: SweepCounter): int {
    match what
    case Failures => if step.CallSweepFailure? && step.name == name then 1 else 0
    case DegradedRuns => if step == CallSweepDegraded(name) && !s.stopped then 1 else 0
    case SuppressedDbDown => if step == CallSweepDegraded(name) && !s.stopped && name in s.dbDegraded then 1 else 0
    case RecoveredRuns => if step == CallSweepRecovered(name) && !s.stopped then 1 else 0
    case ExpiredCommunications => if step.CallExpiredComms? && step.name == name then step.total else 0
  }

  lemma SweepStep(s: State, step: Step, s': State, c: Counter)
    requires Enabled(s, step) && s' == Next(s, step)
    requires step.CallSweepFailure? || step.CallSweepDegraded? || step.CallSweepRecovered? || step.CallExpiredComms?
    ensures Count(s'.counters, c) == Count(s.counters, c) + if c.OfSweep? then SweepOccurrences(s, step, c.sweep, c.what) else 0
  {
  }

  lemma TaskStepCounts(s: State, step: Step, s': State, c: Counter)
    requires Enabled(s, step) && s' == Next(s, step)
    requires !step.CallSweepFailure? && !step.CallSweepDegraded? && !step.CallSweepRecovered? && !step.CallExpiredComms?
    ensures Count(s'.counters, c) == Count(s.counters, c) + Occurrences(s, step, c)
  {
    if step.LookupArrives? {
      var task := s.tasks[step.t];
      RecentMeansNotified(s.rows, task.admins[task.next], task.key, task.since);
    }
  }

  /** All occurrences before step `i`. */
  ghost function Tally(states: seq<State>, steps: seq<Step>, i: nat, c: Counter): int
    requires |states| == |steps| + 1 && i < |states|
  {
    if i == 0 then 0 else Tally(states, steps, i - 1, c) + Occurrences(states[i - 1], steps[i - 1], c)
  }

  /** Every counter is the tally of what it counts. */
  lemma {:induction false} CountersTellWhatHappened(states: seq<State>, steps: seq<Step>, i: nat, c: Counter)
    requires IsExecution(states, steps) && i < |states|
    ensures Count(states[i].counters, c) == Tally(states, steps, i, c)
  {
    if i > 0 {
      CountersTellWhatHappened(states, steps, i - 1, c);
      var s, step := states[i - 1], steps[i - 1];
      assert StepAt(states, steps, i - 1);
      if step.CallSweepFailure? || step.CallSweepDegraded? || step.CallSweepRecovered? || step.CallExpiredComms? {
        SweepStep(s, step, states[i], c);
      } else {
        TaskStepCounts(s, step, states[i], c);
      }
    }
  }
}
