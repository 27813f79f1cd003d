/**
 * The fan-out of one alert (src/api/queues/maintenanceMetrics.ts:143-179), over whole runs of
 * module AlertSink: it ends only when every recipient that was fetched has been handled, and a
 * recipient is skipped only for a recent notification of the same identity.
 */
module AlertFanOut {
  import opened Base
  import opened AlertSink

  /** The recipients that arrived for task `t` before step `i`. */
  function Arrived(steps: seq<Step>, i: nat, t: TaskId): seq<AdminId>
    requires i <= |steps|
  {
    if i == 0 then []
    else if steps[i - 1].AdminsArrive? && steps[i - 1].t == t then steps[i - 1].admins
    else Arrived(steps, i - 1, t)
  }

  /** What a step may do to a task: fetch its recipients once, or leave them alone. */
  predicate KeepsRecipients(s: State, step: Step, task: Task, task': Task) {
    && task'.key == task.key
    && (if step.AdminsArrive? && task.phase == Fetching && task'.phase != Fetching
        then task'.admins == step.admins && task'.since == s.now - 15 * 60 * 1000
        else task'.admins == task.admins && task'.since == task.since)
    && (task.phase != Fetching ==> task'.phase != Fetching)
  }

  lemma CallStep(s: State, step: Step, s': State)
    requires Enabled(s, step) && s' == Next(s, step)
    requires step.CallSweepDegraded? || step.CallSweepRecovered? || step.CallExpiredComms?
    ensures s'.tasks == s.tasks || exists key :: s'.tasks == s.tasks + [Task(key, Fetching, [], 0, 0)]
  {
    var s1, key := CallIsSignalThenLaunch(s, step);
  }

  lemma MoveStep(s: State, step: Step, s': State)
    requires Enabled(s, step) && s' == Next(s, step)
    requires step.AdminsArrive? || step.AdminsReject? || step.LookupArrives? || step.LookupRejects?
          || step.CreateArrives? || step.CreateRejects? || step.FinallyRuns?
    ensures step.t < |s.tasks| && s'.tasks == s.tasks[step.t := s'.tasks[step.t]]
    ensures KeepsRecipients(s, step, s.tasks[step.t], s'.tasks[step.t])
    ensures step.AdminsArrive? ==> s.tasks[step.t].phase == Fetching && s'.tasks[step.t].phase != Fetching
  {
  }

  lemma TaskStep(s: State, step: Step, s': State, t: TaskId)
    requires Enabled(s, step) && s' == Next(s, step) && t < |s'.tasks|
    ensures t >= |s.tasks| ==> s'.tasks[t].phase == Fetching
    ensures t < |s.tasks| && step.AdminsArrive? && step.t == t ==>
      s'.tasks[t].admins == step.admins && s'.tasks[t].since == s.now - 15 * 60 * 1000 && s'.tasks[t].phase != Fetching
    ensures t < |s.tasks| && !(step.AdminsArrive? && step.t == t) ==>
      s'.tasks[t].admins == s.tasks[t].admins && s'.tasks[t].since == s.tasks[t].since
    ensures t < |s.tasks| && s.tasks[t].phase != Fetching ==> s'.tasks[t].phase != Fetching
    ensures step.AdminsArrive? ==> step.t < |s.tasks| && s.tasks[step.t].phase == Fetching
  {
    if step.CallSweepDegraded? || step.CallSweepRecovered? || step.CallExpiredComms? {
      CallStep(s, step, s');
    } else if step.AdminsArrive? || step.AdminsReject? || step.LookupArrives? || step.LookupRejects?
           || step.CreateArrives? || step.CreateRejects? || step.FinallyRuns? {
      MoveStep(s, step, s');
    }
  }

  /** A task keeps the recipients that arrived for it. */
  lemma {:induction false} TaskKeepsItsRecipients(states: seq<State>, steps: seq<Step>, i: nat, t: TaskId)
    requires IsExecution(states, steps) && i < |states|
    ensures t < |states[i].tasks| ==> states[i].tasks[t].admins == Arrived(steps, i, t)
    ensures t >= |states[i].tasks| ==> Arrived(steps, i, t) == []
  {
    RunKeepsInv(states, steps, i);
    if i > 0 {
      RunKeepsInv(states, steps, i - 1);
      TaskKeepsItsRecipients(states, steps, i - 1, t);
      assert StepAt(states, steps, i - 1);
      if t < |states[i].tasks| {
        TaskStep(states[i - 1], steps[i - 1], states[i], t);
        assert TaskSound(states[i].rows, states[i].late, states[i].now, states[i].tasks[t]);
      } else {
        TasksOnlyGrow(states[i - 1], steps[i - 1], states[i]);
      }
    }
  }

  lemma TasksOnlyGrow(s: State, step: Step, s': State)
    requires Enabled(s, step) && s' == Next(s, step)
    ensures |s.tasks| <= |s'.tasks| && (step.AdminsArrive? ==> step.t < |s.tasks|)
  {
    if step.CallSweepDegraded? || step.CallSweepRecovered? || step.CallExpiredComms? {
      var s1, key := CallIsSignalThenLaunch(s, step);
    }
  }

  predicate Ended(task: Task) {
    task.phase == Finished || task.phase == Settled
  }

  /** A fan-out ends only when every recipient that arrived for it has been handled. */
  lemma EndedFanOutReachedEveryone(states: seq<State>, steps: seq<Step>, i: nat, t: TaskId)
    requires IsExecution(states, steps) && i < |states| && t < |states[i].tasks| && Ended(states[i].tasks[t])
    ensures states[i].tasks[t].admins == Arrived(steps, i, t) && states[i].tasks[t].next == |Arrived(steps, i, t)|
  {
    RunKeepsInv(states, steps, i);
    TaskKeepsItsRecipients(states, steps, i, t);
    assert TaskSound(states[i].rows, states[i].late, states[i].now, states[i].tasks[t]);
  }

  /** The recipients of one type: all that arrived for the ended fan-outs, and the progress of the others. */
  function Reached(states: seq<State>, steps: seq<Step>, i: nat, n: nat, kind: Kind): nat
    requires |states| == |steps| + 1 && i < |states| && n <= |states[i].tasks|
  {
    if n == 0 then 0
    else
      var task := states[i].tasks[n - 1];
      Reached(states, steps, i, n - 1, kind) +
        if task.key.kind != kind then 0 else if Ended(task) then |Arrived(steps, i, n - 1)| else task.next
  }

  lemma {:induction false} ReachedIsHandled(states: seq<State>, steps: seq<Step>, i: nat, n: nat, kind: Kind)
    requires IsExecution(states, steps) && i < |states| && n <= |states[i].tasks|
    ensures Reached(states, steps, i, n, kind) == Handled(states[i].tasks[..n], kind)
  {
    if n > 0 {
      ReachedIsHandled(states, steps, i, n - 1, kind);
      assert states[i].tasks[..n][..n - 1] == states[i].tasks[..n - 1];
      if Ended(states[i].tasks[n - 1]) {
        EndedFanOutReachedEveryone(states, steps, i, n - 1);
      }
    }
  }

  /** Per type, sent + deduped + failed counts every recipient that arrived for an ended fan-out, and what the others have done. */
  lemma OutcomesCountEveryArrival(states: seq<State>, steps: seq<Step>, i: nat, kind: Kind)
    requires IsExecution(states, steps) && i < |states|
    ensures Outcomes(states[i].counters, kind) == Reached(states, steps, i, |states[i].tasks|, kind)
  {
    OutcomesCountRecipients(states, steps, i, kind);
    ReachedIsHandled(states, steps, i, |states[i].tasks|, kind);
    assert states[i].tasks[..|states[i].tasks|] == states[i].tasks;
  }

  lemma {:induction false} TaskKeepsItsBound(states: seq<State>, steps: seq<Step>, j: nat, i: nat, t: TaskId)
    requires IsExecution(states, steps) && j < i < |states|
    requires steps[j].AdminsArrive? && steps[j].t == t
    ensures t < |states[i].tasks| && states[i].tasks[t].phase != Fetching
    ensures states[i].tasks[t].since == states[j].now - 15 * 60 * 1000 && Arrived(steps, i, t) == steps[j].admins
  {
    RunKeepsInv(states, steps, i - 1);
    assert StepAt(states, steps, i - 1);
    TasksOnlyGrow(states[i - 1], steps[i - 1], states[i]);
    if i > j + 1 {
      TaskKeepsItsBound(states, steps, j, i - 1, t);
      TaskStep(states[i - 1], steps[i - 1], states[i], t);
    }
  }

  /** A notification of this identity at or after `since`. */
  ghost predicate Notified(rows: seq<Row>, admin: AdminId, key: Key, since: int) {
    exists row | row in rows :: row.admin == admin && row.key == key && row.sentAt >= since
  }

  /**
   * A lookup skips its recipient if and only if a notification of the same identity was sent
   * since 15 minutes before the recipients were fetched; otherwise the write to it is next.
   */
  lemma SkippedExactlyWhenNotified(states: seq<State>, steps: seq<Step>, j: nat, i: nat, t: TaskId)
    requires IsExecution(states, steps) && j < i < |steps|
    requires steps[j].AdminsArrive? && steps[j].t == t && steps[i] == LookupArrives(t)
    ensures t < |states[i].tasks| && states[i].tasks[t].next < |steps[j].admins|
    ensures t < |states[i + 1].tasks|
    ensures
      var before, after := states[i].tasks[t], states[i + 1].tasks[t];
      if Notified(states[i].rows, steps[j].admins[before.next], before.key, states[j].now - 15 * 60 * 1000)
      then after.next == before.next + 1 && after.phase == (if after.next == |steps[j].admins| then Finished else Looking)
      else after.next == before.next && after.phase == Creating
  {
    TaskKeepsItsBound(states, steps, j, i, t);
    TaskKeepsItsRecipients(states, steps, i, t);
    assert StepAt(states, steps, i);
    var task := states[i].tasks[t];
    RecentMeansNotified(states[i].rows, task.admins[task.next], task.key, task.since);
  }

  lemma RecentMeansNotified(rows: seq<Row>, admin: AdminId, key: Key, since: int)
    ensures Recent(rows, admin, key, since) <==> Notified(rows, admin, key, since)
  {
  }

  /** A write that returns leaves one new row, for its recipient and now; any outcome moves on to the next recipient. */
  lemma WriteReachesItsRecipient(states: seq<State>, steps: seq<Step>, j: nat, i: nat, t: TaskId)
    requires IsExecution(states, steps) && j < i < |steps|
    requires steps[j].AdminsArrive? && steps[j].t == t
    requires steps[i] == CreateArrives(t) || (steps[i].CreateRejects? && steps[i].t == t) || steps[i] == LookupRejects(t)
    ensures t < |states[i].tasks| && states[i].tasks[t].next < |steps[j].admins|
    ensures t < |states[i + 1].tasks|
    ensures
      var before, after := states[i].tasks[t], states[i + 1].tasks[t];
      && after.next == before.next + 1 && after.phase == (if after.next == |steps[j].admins| then Finished else Looking)
      && (steps[i] == CreateArrives(t) ==>
            states[i + 1].rows == states[i].rows + [Row(steps[j].admins[before.next], before.key, states[i].now)])
  {
    TaskKeepsItsBound(states, steps, j, i, t);
    TaskKeepsItsRecipients(states, steps, i, t);
    assert StepAt(states, steps, i);
  }

  /** What counts as a database outage, and what does not: other failures leave the database reachable. */
  lemma OutageClasses(state: SweepState, errorClass: string)
    ensures state == TIMEOUT ==> IsDbUnavailableFailure(state, errorClass)
    ensures "PRISMA_" <= errorClass || "PG_" <= errorClass ==> IsDbUnavailableFailure(state, errorClass)
    ensures state != TIMEOUT && ("NET_" <= errorClass || errorClass == "UNCLASSIFIED") ==> !IsDbUnavailableFailure(state, errorClass)
    ensures state != TIMEOUT && "ERR_" <= errorClass ==>
      (IsDbUnavailableFailure(state, errorClass) <==> errorClass == "ERR_PhaseBDatabaseFailure")
  {
    assert "PRISMA_"[0] == 'P' && "PG_"[0] == 'P' && "NET_"[0] == 'N' && "UNCLASSIFIED"[0] == 'U' && "ERR_"[0] == 'E';
    assert "ERR_PhaseBDatabaseFailure"[0] == 'E';
  }
}
