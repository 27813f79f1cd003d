/**
 * The maintenance AlertSink (src/api/queues/maintenanceMetrics.ts) as a protocol of atomic steps.
 *
 * The state holds the sink's closure variables, the alert tasks it launched, the database's
 * Notification rows that carry a maintenance reference (and which of them landed late), one
 * clock shared by `nowMs` and `sentAt`, and the `stop` calls under way. The database is an adversary: every query may
 * succeed, fail, or never return; a create may fail although its row landed, or its row may
 * still land at any later moment.
 */
module AlertSink {
  import opened Base

  /** ALERT_DEDUP_WINDOW_MS */
  const DEDUP_WINDOW_MS := 15 * 60 * 1000

  type AdminId = string
  type TaskId = nat

  /** ADMIN_MAINTENANCE_DEGRADED, ADMIN_MAINTENANCE_RECOVERED, ADMIN_DELIVERY_FAILED. */
  datatype Kind = Degraded | Recovered | Expiry
  /** An alert identity: the notification type and the sweep it refers to. */
  datatype Key = Key(kind: Kind, sweep: string)

  /** One Notification row; `key` stands for its type and referenceId. */
  datatype Row = Row(admin: AdminId, key: Key, sentAt: int)

  /** A create that failed before any row of it was there. */
  datatype Write = Write(admin: AdminId, key: Key)

  datatype Phase = Fetching | Looking | Creating | Finished | Settled
  /** One launched fan-out: `next` is the recipient being handled, `since` the lookup bound. */
  datatype Task = Task(key: Key, phase: Phase, admins: seq<AdminId>, next: nat, since: int)

  datatype StopResult = Draining | Drained | TimedOut
  datatype Stop = Stop(snapshot: set<TaskId>, result: StopResult)

  datatype SweepCounter = Failures | DegradedRuns | SuppressedDbDown | RecoveredRuns | ExpiredCommunications
  datatype Counter = Sent(kind: Kind) | Deduped(kind: Kind) | FailedWrite(kind: Kind) | LaunchFailed
                   | OfSweep(sweep: string, what: SweepCounter)

  datatype State = State(
    stopped: bool,
    inFlight: set<Key>,
    pending: set<TaskId>,
    dbDegraded: set<string>,
    degradedEpisode: set<string>,
    counters: map<Counter, int>,
    tasks: seq<Task>,
    rows: seq<Row>,
    unsettled: seq<Write>,
    late: set<nat>,
    now: int,
    stops: seq<Stop>)

  /** A sink just created over a database that already holds `rows`. */
  predicate Created(s: State) {
    && !s.stopped && s.inFlight == {} && s.pending == {} && s.dbDegraded == {} && s.degradedEpisode == {}
    && s.counters == map[] && s.tasks == [] && s.unsettled == [] && s.late == {} && s.stops == []
    && forall i | 0 <= i < |s.rows| :: s.rows[i].sentAt <= s.now
  }

  // ---------------------------------------------------------------------------
  // The atomic steps
  // ---------------------------------------------------------------------------

  datatype SweepState = SUCCESS | LOCK_SKIPPED | TIMEOUT | FAILURE

  predicate IsDbUnavailableFailure(state: SweepState, errorClass: string) {
    || state == TIMEOUT
    || errorClass == "ERR_PhaseBDatabaseFailure"
    || "PRISMA_" <= errorClass || "PG_" <= errorClass
  }

  function Count(counters: map<Counter, int>, c: Counter): int {
    if c in counters then counters[c] else 0
  }

  function Bump(counters: map<Counter, int>, c: Counter, amount: int := 1): map<Counter, int> {
    counters[c := Count(counters, c) + amount]
  }

  function LaunchAlert(s: State, key: Key): State {
    if s.stopped || key in s.inFlight then s
    else
      s.(inFlight := s.inFlight + {key},
         tasks := s.tasks + [Task(key, Fetching, [], 0, 0)],
         pending := s.pending + {|s.tasks|})
  }

  function SweepFailure(s: State, name: string, state: SweepState, errorClass: string): State {
    s.(counters := Bump(s.counters, OfSweep(name, Failures)),
       dbDegraded := if IsDbUnavailableFailure(state, errorClass) then s.dbDegraded + {name} else s.dbDegraded - {name})
  }

  function SweepDegraded(s: State, name: string): State {
    if s.stopped then s
    else
      var s1 := s.(counters := Bump(s.counters, OfSweep(name, DegradedRuns)), degradedEpisode := s.degradedEpisode + {name});
      if name in s.dbDegraded then s1.(counters := Bump(s1.counters, OfSweep(name, SuppressedDbDown)))
      else LaunchAlert(s1, Key(Degraded, name))
  }

  function SweepRecovered(s: State, name: string): State {
    if s.stopped then s
    else
      var s1 := s.(counters := Bump(s.counters, OfSweep(name, RecoveredRuns)), dbDegraded := s.dbDegraded - {name});
      if name !in s.degradedEpisode then s1
      else LaunchAlert(s1.(degradedEpisode := s.degradedEpisode - {name}), Key(Recovered, name))
  }

  function ExpiredComms(s: State, name: string, total: int): State {
    var s1 := s.(counters := Bump(s.counters, OfSweep(name, ExpiredCommunications), total));
    if s.stopped || total <= 0 then s1 else LaunchAlert(s1, Key(Expiry, name))
  }

  function SetTask(s: State, t: TaskId, task: Task): State
    requires t < |s.tasks|
  {
    s.(tasks := s.tasks[t := task])
  }

  /** `getAlertableAdmins` returned; the lookup bound is computed once, here. */
  function AdminsFetched(s: State, t: TaskId, admins: seq<AdminId>): State
    requires t < |s.tasks|
  {
    SetTask(s, t, s.tasks[t].(admins := admins, next := 0, since := s.now - DEDUP_WINDOW_MS,
                              phase := if admins == [] then Finished else Looking))
  }

  /** `getAlertableAdmins` rejected: the whole launch failed. */
  function FetchFailed(s: State, t: TaskId): State
    requires t < |s.tasks|
  {
    SetTask(s, t, s.tasks[t].(phase := Finished)).(counters := Bump(s.counters, LaunchFailed))
  }

  /** The dedup lookup: a row of the same identity sent at or after `since`. */
  predicate Recent(rows: seq<Row>, admin: AdminId, key: Key, since: int) {
    exists i | 0 <= i < |rows| :: rows[i].admin == admin && rows[i].key == key && rows[i].sentAt >= since
  }

  /** One recipient is done; the loop moves on. */
  function Advance(task: Task): Task {
    task.(next := task.next + 1, phase := if task.next + 1 >= |task.admins| then Finished else Looking)
  }

  /** One recipient ended with `outcome`, which names the counter to bump. */
  function RecipientDone(s: State, t: TaskId, outcome: Counter): State
    requires t < |s.tasks|
  {
    SetTask(s, t, Advance(s.tasks[t])).(counters := Bump(s.counters, outcome))
  }

  function LookupReturned(s: State, t: TaskId): State
    requires t < |s.tasks| && s.tasks[t].next < |s.tasks[t].admins|
  {
    var task := s.tasks[t];
    if Recent(s.rows, task.admins[task.next], task.key, task.since)
    then RecipientDone(s, t, Deduped(task.key.kind))
    else SetTask(s, t, task.(phase := Creating))
  }

  function WriteRow(s: State, t: TaskId): State
    requires t < |s.tasks| && s.tasks[t].next < |s.tasks[t].admins|
  {
    var task := s.tasks[t];
    s.(rows := s.rows + [Row(task.admins[task.next], task.key, s.now)])
  }

  function CreateReturned(s: State, t: TaskId): State
    requires t < |s.tasks| && s.tasks[t].next < |s.tasks[t].admins|
  {
    RecipientDone(WriteRow(s, t), t, Sent(s.tasks[t].key.kind))
  }

  function LeaveUnsettled(s: State, t: TaskId): State
    requires t < |s.tasks| && s.tasks[t].next < |s.tasks[t].admins|
  {
    var task := s.tasks[t];
    s.(unsettled := s.unsettled + [Write(task.admins[task.next], task.key)])
  }

  /** The create threw; its row landed before the error, or may still land. */
  function CreateFailed(s: State, t: TaskId, landed: bool): State
    requires t < |s.tasks| && s.tasks[t].next < |s.tasks[t].admins|
  {
    RecipientDone(if landed then WriteRow(s, t) else LeaveUnsettled(s, t), t, FailedWrite(s.tasks[t].key.kind))
  }

  /** The row of a create that had failed is there after all. */
  function LandLate(s: State, w: nat): State
    requires w < |s.unsettled|
  {
    s.(rows := s.rows + [Row(s.unsettled[w].admin, s.unsettled[w].key, s.now)],
       late := s.late + {|s.rows|},
       unsettled := s.unsettled[..w] + s.unsettled[w + 1..])
  }

  /** The `.finally` handler. */
  function Finalize(s: State, t: TaskId): State
    requires t < |s.tasks|
  {
    SetTask(s, t, s.tasks[t].(phase := Settled)).(inFlight := s.inFlight - {s.tasks[t].key}, pending := s.pending - {t})
  }

  /** `stop()` up to its race: terminal flag first, then the snapshot it will wait for. */
  function BeginStop(s: State): State {
    s.(stopped := true, stops := s.stops + [Stop(s.pending, if s.pending == {} then Drained else Draining)])
  }

  function EndStop(s: State, k: nat, result: StopResult): State
    requires k < |s.stops|
  {
    s.(stops := s.stops[k := s.stops[k].(result := result)])
  }

  // ---------------------------------------------------------------------------
  // Runs
  // ---------------------------------------------------------------------------

  datatype Step =
    | ClockAdvances(to: int)
    | CallSweepFailure(name: string, state: SweepState, errorClass: string)
    | CallSweepDegraded(name: string)
    | CallSweepRecovered(name: string)
    | CallExpiredComms(name: string, total: int)
    | AdminsArrive(t: TaskId, admins: seq<AdminId>)
    | AdminsReject(t: TaskId)
    | LookupArrives(t: TaskId)
    | LookupRejects(t: TaskId)
    | CreateArrives(t: TaskId)
    | CreateRejects(t: TaskId, landed: bool)
    | RowLands(w: nat)
    | FinallyRuns(t: TaskId)
    | CallStop
    | StopDrains(k: nat)
    | StopExpires(k: nat)

  predicate InPhase(s: State, t: TaskId, phase: Phase) {
    && t < |s.tasks| && s.tasks[t].phase == phase
    && (phase == Looking || phase == Creating ==> s.tasks[t].next < |s.tasks[t].admins|)
  }

  predicate Enabled(s: State, step: Step) {
    match step
    case ClockAdvances(to) => s.now <= to
    case AdminsArrive(t, _) => InPhase(s, t, Fetching)
    case AdminsReject(t) => InPhase(s, t, Fetching)
    case LookupArrives(t) => InPhase(s, t, Looking)
    case LookupRejects(t) => InPhase(s, t, Looking)
    case CreateArrives(t) => InPhase(s, t, Creating)
    case CreateRejects(t, _) => InPhase(s, t, Creating)
    case RowLands(w) => w < |s.unsettled|
    case FinallyRuns(t) => InPhase(s, t, Finished)
    case StopDrains(k) =>
      && k < |s.stops| && s.stops[k].result == Draining
      && forall t | t in s.stops[k].snapshot :: InPhase(s, t, Settled)
    case StopExpires(k) => k < |s.stops| && s.stops[k].result == Draining
    case _ => true
  }

  function Next(s: State, step: Step): State
    requires Enabled(s, step)
  {
    match step
    case ClockAdvances(to) => s.(now := to)
    case CallSweepFailure(name, state, errorClass) => SweepFailure(s, name, state, errorClass)
    case CallSweepDegraded(name) => SweepDegraded(s, name)
    case CallSweepRecovered(name) => SweepRecovered(s, name)
    case CallExpiredComms(name, total) => ExpiredComms(s, name, total)
    case AdminsArrive(t, admins) => AdminsFetched(s, t, admins)
    case AdminsReject(t) => FetchFailed(s, t)
    case LookupArrives(t) => LookupReturned(s, t)
    case LookupRejects(t) => RecipientDone(s, t, FailedWrite(s.tasks[t].key.kind))
    case CreateArrives(t) => CreateReturned(s, t)
    case CreateRejects(t, landed) => CreateFailed(s, t, landed)
    case RowLands(w) => LandLate(s, w)
    case FinallyRuns(t) => Finalize(s, t)
    case CallStop => BeginStop(s)
    case StopDrains(k) => EndStop(s, k, Drained)
    case StopExpires(k) => EndStop(s, k, TimedOut)
  }

  predicate StepAt(states: seq<State>, steps: seq<Step>, i: nat)
    requires |states| == |steps| + 1 && i < |steps|
  {
    Enabled(states[i], steps[i]) && states[i + 1] == Next(states[i], steps[i])
  }

  /** A run of one sink, from its creation, under any interleaving. */
  predicate IsExecution(states: seq<State>, steps: seq<Step>) {
    && |states| == |steps| + 1 && Created(states[0])
    && forall i | 0 <= i < |steps| :: StepAt(states, steps, i)
  }

  // ---------------------------------------------------------------------------
  // Invariants
  // ---------------------------------------------------------------------------

  /** The tracked promises are exactly the unsettled tasks, and each holds its own identity. */
  predicate TasksTracked(s: State) {
    && (forall t | t in s.pending :: t < |s.tasks|)
    && (forall t | 0 <= t < |s.tasks| :: t in s.pending <==> s.tasks[t].phase != Settled)
    && (forall t | t in s.pending :: s.tasks[t].key in s.inFlight)
    && (forall t, u | t in s.pending && u in s.pending && t != u :: s.tasks[t].key != s.tasks[u].key)
    && |s.inFlight| == |s.pending|
  }

  /** A row that did not land late, of this identity, sent at or after `since`. */
  predicate RecentOnTime(rows: seq<Row>, late: set<nat>, admin: AdminId, key: Key, since: int) {
    exists i | 0 <= i < |rows| :: i !in late && rows[i].admin == admin && rows[i].key == key && rows[i].sentAt >= since
  }

  /** Where a task is in its loop, and what its last lookup established. */
  predicate TaskSound(rows: seq<Row>, late: set<nat>, now: int, task: Task) {
    && task.next <= |task.admins|
    && (task.phase == Fetching ==> task.next == 0 && task.admins == [])
    && (task.phase == Finished || task.phase == Settled ==> task.next == |task.admins|)
    && (task.phase == Looking || task.phase == Creating ==>
          task.next < |task.admins| && task.since <= now - DEDUP_WINDOW_MS)
    && (task.phase == Creating ==> !RecentOnTime(rows, late, task.admins[task.next], task.key, task.since))
  }

  predicate RowsInThePast(s: State) {
    (forall i | 0 <= i < |s.rows| :: s.rows[i].sentAt <= s.now) && forall i | i in s.late :: i < |s.rows|
  }

  predicate TasksSound(s: State) {
    RowsInThePast(s) && forall t | 0 <= t < |s.tasks| :: TaskSound(s.rows, s.late, s.now, s.tasks[t])
  }

  predicate StopsHonest(s: State) {
    && (s.stops != [] ==> s.stopped)
    && (forall k | 0 <= k < |s.stops| :: s.pending <= s.stops[k].snapshot)
    && (forall k | 0 <= k < |s.stops| && s.stops[k].result == Drained :: s.pending == {})
  }

  predicate Inv(s: State) {
    TasksTracked(s) && TasksSound(s) && StopsHonest(s)
  }

  /** One more unsettled task, with an identity that no other holds. */
  lemma AddingATask(s: State, key: Key, s': State)
    requires TasksTracked(s) && key !in s.inFlight
    requires s'.tasks == s.tasks + [Task(key, Fetching, [], 0, 0)]
    requires s'.pending == s.pending + {|s.tasks|} && s'.inFlight == s.inFlight + {key}
    ensures TasksTracked(s')
  {
    var n := |s.tasks|;
    assert |s'.pending| == |s.pending| + 1 && |s'.inFlight| == |s.inFlight| + 1;
    assert s'.tasks[n] == Task(key, Fetching, [], 0, 0);
    forall t: nat | t < n ensures s'.tasks[t] == s.tasks[t] && (t in s'.pending <==> t in s.pending) {
    }
    forall t | t in s'.pending ensures t < |s'.tasks| && s'.tasks[t].key in s'.inFlight {
    }
    forall t, u | t in s'.pending && u in s'.pending && t != u ensures s'.tasks[t].key != s'.tasks[u].key {
      if t == n {
        assert u in s.pending && s.tasks[u].key in s.inFlight;
      } else if u == n {
        assert t in s.pending && s.tasks[t].key in s.inFlight;
      }
    }
  }

  lemma LaunchKeepsTasksTracked(s: State, key: Key)
    requires TasksTracked(s)
    ensures TasksTracked(LaunchAlert(s, key))
  {
    if !s.stopped && key !in s.inFlight {
      AddingATask(s, key, LaunchAlert(s, key));
    }
  }

  lemma LaunchKeepsTasksSound(s: State, key: Key)
    requires TasksSound(s)
    ensures TasksSound(LaunchAlert(s, key))
  {
    var s' := LaunchAlert(s, key);
    forall t | 0 <= t < |s'.tasks| ensures TaskSound(s.rows, s.late, s.now, s'.tasks[t]) {
      if t < |s.tasks| {
        assert TaskSound(s.rows, s.late, s.now, s.tasks[t]);
      }
    }
  }

  /** A launch happens only while no `stop` was called, so there is no snapshot to be honest about. */
  lemma LaunchAlertKeepsInv(s: State, key: Key)
    requires Inv(s)
    ensures Inv(LaunchAlert(s, key))
  {
    LaunchKeepsTasksTracked(s, key);
    LaunchKeepsTasksSound(s, key);
    assert StopsHonest(LaunchAlert(s, key));
  }

  /** The invariant does not read counters, outage flags, episodes or unsettled creates. */
  lemma InvIgnoresSignals(s: State, s': State)
    requires Inv(s)
    requires s' == s.(counters := s'.counters, dbDegraded := s'.dbDegraded, degradedEpisode := s'.degradedEpisode, unsettled := s'.unsettled)
    ensures Inv(s')
  {
    assert forall t | 0 <= t < |s.tasks| :: TaskSound(s.rows, s.late, s.now, s.tasks[t]);
  }

  lemma SetTaskKeepsInv(s: State, t: TaskId, task: Task)
    requires Inv(s) && t < |s.tasks| && TaskSound(s.rows, s.late, s.now, task)
    requires task.key == s.tasks[t].key && s.tasks[t].phase != Settled && task.phase != Settled
    ensures Inv(SetTask(s, t, task))
  {
  }

  /** Only the fan-out that holds an identity writes rows of that identity. */
  lemma WriteRowKeepsInv(s: State, t: TaskId)
    requires Inv(s) && InPhase(s, t, Creating)
    ensures Inv(SetTask(WriteRow(s, t), t, Advance(s.tasks[t])))
  {
    var row := Row(s.tasks[t].admins[s.tasks[t].next], s.tasks[t].key, s.now);
    var s1 := SetTask(s, t, Advance(s.tasks[t]));
    SetTaskKeepsInv(s, t, Advance(s.tasks[t]));
    forall u | 0 <= u < |s1.tasks| ensures TaskSound(s.rows + [row], s.late, s.now, s1.tasks[u]) {
      assert TaskSound(s.rows, s.late, s.now, s1.tasks[u]);
      if s1.tasks[u].phase == Creating {
        assert u != t && u in s.pending && t in s.pending;
      }
    }
  }

  lemma LandLateKeepsInv(s: State, w: nat)
    requires Inv(s) && w < |s.unsettled|
    ensures Inv(LandLate(s, w))
  {
    var s' := LandLate(s, w);
    forall t | 0 <= t < |s.tasks| ensures TaskSound(s'.rows, s'.late, s.now, s.tasks[t]) {
      assert TaskSound(s.rows, s.late, s.now, s.tasks[t]);
    }
  }

  lemma FinalizeKeepsInv(s: State, t: TaskId)
    requires Inv(s) && InPhase(s, t, Finished)
    ensures Inv(Finalize(s, t))
  {
    assert t in s.pending && s.tasks[t].key in s.inFlight;
  }

  /** `s1` differs from `s` in sweep counters, outage flags and episodes only. */
  ghost predicate Signalled(s: State, s1: State) {
    && s1 == s.(counters := s1.counters, dbDegraded := s1.dbDegraded, degradedEpisode := s1.degradedEpisode)
    && forall c: Counter | !c.OfSweep? :: Count(s1.counters, c) == Count(s.counters, c)
  }

  /** An alerting call is a signal, perhaps followed by a launch. */
  lemma DegradedIsSignalThenLaunch(s: State, name: string) returns (s1: State)
    ensures Signalled(s, s1) && (SweepDegraded(s, name) == s1 || SweepDegraded(s, name) == LaunchAlert(s1, Key(Degraded, name)))
  {
    var counted := Bump(s.counters, OfSweep(name, DegradedRuns));
    var suppressed := Bump(counted, OfSweep(name, SuppressedDbDown));
    s1 := if s.stopped then s
          else s.(counters := if name in s.dbDegraded then suppressed else counted, degradedEpisode := s.degradedEpisode + {name});
  }

  lemma RecoveredIsSignalThenLaunch(s: State, name: string) returns (s1: State)
    ensures Signalled(s, s1) && (SweepRecovered(s, name) == s1 || SweepRecovered(s, name) == LaunchAlert(s1, Key(Recovered, name)))
  {
    s1 := if s.stopped then s
          else s.(counters := Bump(s.counters, OfSweep(name, RecoveredRuns)), dbDegraded := s.dbDegraded - {name},
                  degradedEpisode := s.degradedEpisode - {name});
    assert name !in s.degradedEpisode ==> s.degradedEpisode - {name} == s.degradedEpisode;
  }

  lemma ExpiryIsSignalThenLaunch(s: State, name: string, total: int) returns (s1: State)
    ensures Signalled(s, s1) && (ExpiredComms(s, name, total) == s1 || ExpiredComms(s, name, total) == LaunchAlert(s1, Key(Expiry, name)))
  {
    s1 := s.(counters := Bump(s.counters, OfSweep(name, ExpiredCommunications), total));
  }

  lemma CallIsSignalThenLaunch(s: State, step: Step) returns (s1: State, key: Key)
    requires step.CallSweepDegraded? || step.CallSweepRecovered? || step.CallExpiredComms?
    ensures Signalled(s, s1) && (Next(s, step) == s1 || Next(s, step) == LaunchAlert(s1, key))
  {
    if step.CallSweepDegraded? {
      s1 := DegradedIsSignalThenLaunch(s, step.name);
      key := Key(Degraded, step.name);
    } else if step.CallSweepRecovered? {
      s1 := RecoveredIsSignalThenLaunch(s, step.name);
      key := Key(Recovered, step.name);
    } else {
      s1 := ExpiryIsSignalThenLaunch(s, step.name, step.total);
      key := Key(Expiry, step.name);
    }
  }

  lemma AlertCallKeepsInv(s: State, step: Step)
    requires Inv(s) && (step.CallSweepDegraded? || step.CallSweepRecovered? || step.CallExpiredComms?)
    ensures Inv(Next(s, step))
  {
    var s1, key := CallIsSignalThenLaunch(s, step);
    InvIgnoresSignals(s, s1);
    LaunchAlertKeepsInv(s1, key);
  }

  lemma SkippedRecipientKeepsInv(s: State, t: TaskId, outcome: Counter)
    requires Inv(s) && (InPhase(s, t, Looking) || InPhase(s, t, Creating))
    ensures Inv(RecipientDone(s, t, outcome))
  {
    assert TaskSound(s.rows, s.late, s.now, s.tasks[t]);
    SetTaskKeepsInv(s, t, Advance(s.tasks[t]));
    InvIgnoresSignals(SetTask(s, t, Advance(s.tasks[t])), RecipientDone(s, t, outcome));
  }

  lemma WrittenRecipientKeepsInv(s: State, t: TaskId, outcome: Counter)
    requires Inv(s) && InPhase(s, t, Creating)
    ensures Inv(RecipientDone(WriteRow(s, t), t, outcome))
  {
    WriteRowKeepsInv(s, t);
    InvIgnoresSignals(SetTask(WriteRow(s, t), t, Advance(s.tasks[t])), RecipientDone(WriteRow(s, t), t, outcome));
  }

  lemma LookupKeepsInv(s: State, t: TaskId)
    requires Inv(s) && InPhase(s, t, Looking)
    ensures Inv(LookupReturned(s, t))
  {
    var task := s.tasks[t];
    if Recent(s.rows, task.admins[task.next], task.key, task.since) {
      SkippedRecipientKeepsInv(s, t, Deduped(task.key.kind));
    } else {
      assert TaskSound(s.rows, s.late, s.now, task);
      SetTaskKeepsInv(s, t, task.(phase := Creating));
    }
  }

  lemma RecipientStepKeepsInv(s: State, step: Step)
    requires Inv(s) && Enabled(s, step)
    requires step.LookupArrives? || step.LookupRejects? || step.CreateArrives? || step.CreateRejects?
    ensures Inv(Next(s, step))
  {
    var kind := s.tasks[step.t].key.kind;
    match step
    case LookupArrives(t) => LookupKeepsInv(s, t);
    case LookupRejects(t) => SkippedRecipientKeepsInv(s, t, FailedWrite(kind));
    case CreateArrives(t) => WrittenRecipientKeepsInv(s, t, Sent(kind));
    case CreateRejects(t, landed) =>
      if landed {
        WrittenRecipientKeepsInv(s, t, FailedWrite(kind));
      } else {
        InvIgnoresSignals(s, LeaveUnsettled(s, t));
        SkippedRecipientKeepsInv(LeaveUnsettled(s, t), t, FailedWrite(kind));
      }
  }

  lemma StepKeepsInv(s: State, step: Step)
    requires Inv(s) && Enabled(s, step)
    ensures Inv(Next(s, step))
  {
    match step
    case CallSweepDegraded(_) => AlertCallKeepsInv(s, step);
    case CallSweepRecovered(_) => AlertCallKeepsInv(s, step);
    case CallExpiredComms(_, _) => AlertCallKeepsInv(s, step);
    case AdminsArrive(t, admins) => SetTaskKeepsInv(s, t, AdminsFetched(s, t, admins).tasks[t]);
    case AdminsReject(t) => SetTaskKeepsInv(s, t, s.tasks[t].(phase := Finished));
    case LookupArrives(_) => RecipientStepKeepsInv(s, step);
    case LookupRejects(_) => RecipientStepKeepsInv(s, step);
    case CreateArrives(_) => RecipientStepKeepsInv(s, step);
    case CreateRejects(_, _) => RecipientStepKeepsInv(s, step);
    case RowLands(w) => LandLateKeepsInv(s, w);
    case FinallyRuns(t) => FinalizeKeepsInv(s, t);
    case _ =>
  }

  lemma {:induction false} RunKeepsInv(states: seq<State>, steps: seq<Step>, i: nat)
    requires IsExecution(states, steps) && i < |states|
    ensures Inv(states[i])
  {
    if i > 0 {
      RunKeepsInv(states, steps, i - 1);
      assert StepAt(states, steps, i - 1);
      StepKeepsInv(states[i - 1], steps[i - 1]);
    }
  }

  // ---------------------------------------------------------------------------
  // Notification spacing
  // ---------------------------------------------------------------------------

  /** Every row from index `first` on comes more than the window after each earlier row of its identity, late ones aside. */
  predicate Spaced(rows: seq<Row>, late: set<nat>, first: nat) {
    forall a, b | 0 <= a < b < |rows| && first <= b && a !in late && b !in late && rows[a].admin == rows[b].admin && rows[a].key == rows[b].key ::
      rows[b].sentAt - rows[a].sentAt > DEDUP_WINDOW_MS
  }

  predicate WritesRow(step: Step) {
    step.CreateArrives? || (step.CreateRejects? && step.landed)
  }

  lemma RowsStep(s: State, step: Step, s': State)
    requires Inv(s) && Enabled(s, step) && s' == Next(s, step)
    ensures
      if WritesRow(step) then
        var task := s.tasks[step.t];
        && HoldsItsIdentity(s, step.t) && s'.late == s.late
        && s'.rows == s.rows + [Row(task.admins[task.next], task.key, s.now)]
        && !RecentOnTime(s.rows, s.late, task.admins[task.next], task.key, task.since) && task.since <= s.now - DEDUP_WINDOW_MS
      else if step.RowLands? then
        |s'.rows| == |s.rows| + 1 && s'.rows[..|s.rows|] == s.rows && s'.late == s.late + {|s.rows|}
      else s'.rows == s.rows && s'.late == s.late
  {
    if WritesRow(step) {
      assert TaskSound(s.rows, s.late, s.now, s.tasks[step.t]);
    }
  }

  predicate HoldsItsIdentity(s: State, t: TaskId) {
    InPhase(s, t, Creating) && t in s.pending && s.tasks[t].key in s.inFlight
  }

  lemma SpacingStep(s: State, step: Step, s': State, first: nat)
    requires Inv(s) && Enabled(s, step) && s' == Next(s, step)
    requires Spaced(s.rows, s.late, first) && first <= |s.rows|
    ensures Spaced(s'.rows, s'.late, first) && first <= |s'.rows|
  {
    RowsStep(s, step, s');
    assert step.RowLands? ==> forall i | 0 <= i < |s.rows| :: s'.rows[i] == s'.rows[..|s.rows|][i];
  }

  lemma {:induction false} RunKeepsSpacing(states: seq<State>, steps: seq<Step>, i: nat)
    requires IsExecution(states, steps) && i < |states|
    ensures |states[0].rows| <= |states[i].rows| && Spaced(states[i].rows, states[i].late, |states[0].rows|)
  {
    if i > 0 {
      RunKeepsSpacing(states, steps, i - 1);
      RunKeepsInv(states, steps, i - 1);
      assert StepAt(states, steps, i - 1);
      SpacingStep(states[i - 1], steps[i - 1], states[i], |states[0].rows|);
    }
  }

  /** Row `a` was written by a create that had failed before. */
  ghost predicate LandedLate(states: seq<State>, steps: seq<Step>, a: nat)
    requires |states| == |steps| + 1
  {
    exists m | 0 <= m < |steps| :: steps[m].RowLands? && |states[m].rows| == a
  }

  lemma {:induction false} LateRowsLandedLate(states: seq<State>, steps: seq<Step>, i: nat, a: nat)
    requires IsExecution(states, steps) && i < |states| && a in states[i].late
    ensures LandedLate(states, steps, a)
  {
    if i > 0 {
      RunKeepsInv(states, steps, i - 1);
      assert StepAt(states, steps, i - 1);
      RowsStep(states[i - 1], steps[i - 1], states[i]);
      if a in states[i - 1].late {
        LateRowsLandedLate(states, steps, i - 1, a);
      } else {
        assert steps[i - 1].RowLands? && |states[i - 1].rows| == a;
      }
    }
  }

  /**
   * A notification the sink wrote comes more than 15 minutes after every earlier one for the
   * same recipient, type and reference, including those it found in the database, unless one of
   * the two is the row of a failed create that landed late.
   */
  lemma NotificationsSpacedOut(states: seq<State>, steps: seq<Step>, i: nat, a: nat, b: nat)
    requires IsExecution(states, steps) && i < |states|
    requires a < b < |states[i].rows| && |states[0].rows| <= b
    requires states[i].rows[a].admin == states[i].rows[b].admin && states[i].rows[a].key == states[i].rows[b].key
    ensures
      states[i].rows[b].sentAt - states[i].rows[a].sentAt > 15 * 60 * 1000
      || LandedLate(states, steps, a) || LandedLate(states, steps, b)
  {
    RunKeepsSpacing(states, steps, i);
    if a in states[i].late {
      LateRowsLandedLate(states, steps, i, a);
    } else if b in states[i].late {
      LateRowsLandedLate(states, steps, i, b);
    }
  }

  // ---------------------------------------------------------------------------
  // Single-flight and stop
  // ---------------------------------------------------------------------------

  /** Distinct tasks of a finite set hold as many distinct identities. */
  lemma {:induction false} DistinctKeysCounted(tasks: seq<Task>, ts: set<TaskId>, keys: set<Key>)
    requires forall t | t in ts :: t < |tasks| && tasks[t].key in keys
    requires forall t, u | t in ts && u in ts && t != u :: tasks[t].key != tasks[u].key
    ensures |ts| <= |keys|
    ensures |ts| == |keys| ==> forall key | key in keys :: exists t | t in ts :: tasks[t].key == key
  {
    if ts != {} {
      var t :| t in ts;
      DistinctKeysCounted(tasks, ts - {t}, keys - {tasks[t].key});
      if |ts| == |keys| {
        forall key | key in keys ensures exists u | u in ts :: tasks[u].key == key {
          if key != tasks[t].key {
            assert key in keys - {tasks[t].key};
            var u :| u in ts - {t} && tasks[u].key == key;
          }
        }
      }
    }
  }

  /** In-flight identities and tracked tasks match one to one in every reachable state. */
  lemma InFlightMatchesPending(states: seq<State>, steps: seq<Step>, i: nat, key: Key)
    requires IsExecution(states, steps) && i < |states|
    ensures key in states[i].inFlight <==> exists t | t in states[i].pending :: t < |states[i].tasks| && states[i].tasks[t].key == key
    ensures forall t, u | t in states[i].pending && u in states[i].pending ::
              t < |states[i].tasks| && u < |states[i].tasks| && (states[i].tasks[t].key == states[i].tasks[u].key ==> t == u)
  {
    RunKeepsInv(states, steps, i);
    var s := states[i];
    DistinctKeysCounted(s.tasks, s.pending, s.inFlight);
    if key in s.inFlight {
      var t :| t in s.pending && s.tasks[t].key == key;
    }
  }

  /** `step` launches a new alert task for `key`. */
  predicate Launches(s: State, step: Step, key: Key)
    requires Enabled(s, step)
  {
    var s' := Next(s, step);
    |s'.tasks| == |s.tasks| + 1 && s'.tasks[|s.tasks|] == Task(key, Fetching, [], 0, 0)
  }

  lemma StoppedStep(s: State, step: Step, s': State)
    requires Inv(s) && Enabled(s, step) && s' == Next(s, step) && s.stopped
    ensures s'.stopped && |s'.tasks| == |s.tasks| && s'.pending <= s.pending
  {
  }

  /** From the moment `stop` begins, no alert is ever launched again. */
  lemma {:induction false} NoLaunchAfterStop(states: seq<State>, steps: seq<Step>, i: nat, j: nat)
    requires IsExecution(states, steps) && i < j < |states| && steps[i] == CallStop
    ensures states[j].stopped && |states[j].tasks| == |states[i].tasks| && states[j].pending <= states[i].pending
  {
    RunKeepsInv(states, steps, j - 1);
    assert StepAt(states, steps, j - 1);
    if j > i + 1 {
      NoLaunchAfterStop(states, steps, i, j - 1);
      StoppedStep(states[j - 1], steps[j - 1], states[j]);
    }
  }

  lemma QuietStep(s: State, step: Step, s': State)
    requires Inv(s) && Enabled(s, step) && s' == Next(s, step) && s.stopped && s.pending == {}
    ensures s'.stopped && s'.pending == {}
    ensures |s'.rows| == |s.rows| + if step.RowLands? then 1 else 0
    ensures s.unsettled == [] ==> s'.unsettled == [] && !step.RowLands?
    ensures !step.RowLands? ==> s'.rows == s.rows
  {
    StoppedStep(s, step, s');
    RowsStep(s, step, s');
  }

  /** How many rows land late from step `i` to before step `j`. */
  function LateLandings(steps: seq<Step>, i: nat, j: nat): (n: nat)
    requires i <= j <= |steps|
    ensures n == 0 <==> forall m | i <= m < j :: !steps[m].RowLands?
    decreases j
  {
    if i == j then 0 else LateLandings(steps, i, j - 1) + if steps[j - 1].RowLands? then 1 else 0
  }

  /**
   * Once some `stop` has returned drained, the sink writes nothing for the rest of the run: the
   * rows stay as they are if and only if no failed create lands late, each that does adds one
   * row, and none can once none was left unsettled.
   */
  lemma {:induction false} DrainedIsSilent(states: seq<State>, steps: seq<Step>, i: nat, j: nat, k: nat)
    requires IsExecution(states, steps) && i <= j < |states|
    requires k < |states[i].stops| && states[i].stops[k].result == Drained
    ensures states[j].stopped && states[j].pending == {}
    ensures states[j].rows == states[i].rows <==> forall m | i <= m < j :: !steps[m].RowLands?
    ensures |states[j].rows| == |states[i].rows| + LateLandings(steps, i, j)
    ensures states[i].unsettled == [] ==> states[j].rows == states[i].rows && states[j].unsettled == []
  {
    RunKeepsInv(states, steps, i);
    if i < j {
      DrainedIsSilent(states, steps, i, j - 1, k);
      RunKeepsInv(states, steps, j - 1);
      assert StepAt(states, steps, j - 1);
      QuietStep(states[j - 1], steps[j - 1], states[j]);
    }
  }

  // ---------------------------------------------------------------------------
  // Conservation of recipients
  // ---------------------------------------------------------------------------

  /** How many recipients the fan-outs of one type have handled so far. */
  function Handled(tasks: seq<Task>, kind: Kind): nat {
    if tasks == [] then 0
    else Handled(tasks[..|tasks| - 1], kind) + if tasks[|tasks| - 1].key.kind == kind then tasks[|tasks| - 1].next else 0
  }

  lemma {:induction false} HandledUpdate(tasks: seq<Task>, t: TaskId, task: Task, kind: Kind)
    requires t < |tasks| && task.key == tasks[t].key
    ensures
      Handled(tasks[t := task], kind)
        == Handled(tasks, kind) + if task.key.kind == kind then task.next - tasks[t].next else 0
  {
    var last := |tasks| - 1;
    var updated := tasks[t := task];
    if t == last {
      assert updated[..last] == tasks[..last];
    } else {
      assert updated[..last] == tasks[..last][t := task];
      HandledUpdate(tasks[..last], t, task, kind);
    }
  }

  function Outcomes(counters: map<Counter, int>, kind: Kind): int {
    Count(counters, Sent(kind)) + Count(counters, Deduped(kind)) + Count(counters, FailedWrite(kind))
  }

  /** A recipient that ends with an outcome of its task's type is counted once. */
  lemma RecipientDoneConserves(s: State, t: TaskId, outcome: Counter, kind: Kind)
    requires t < |s.tasks|
    requires outcome == Sent(s.tasks[t].key.kind) || outcome == Deduped(s.tasks[t].key.kind) || outcome == FailedWrite(s.tasks[t].key.kind)
    ensures var s' := RecipientDone(s, t, outcome);
      Outcomes(s'.counters, kind) - Outcomes(s.counters, kind) == Handled(s'.tasks, kind) - Handled(s.tasks, kind)
  {
    HandledUpdate(s.tasks, t, Advance(s.tasks[t]), kind);
  }

  /** Other moves of a task count nothing and handle nobody. */
  lemma TaskMoveConserves(s: State, t: TaskId, task: Task, kind: Kind)
    requires t < |s.tasks| && task.key == s.tasks[t].key && task.next == s.tasks[t].next
    ensures Handled(s.tasks[t := task], kind) == Handled(s.tasks, kind)
  {
    HandledUpdate(s.tasks, t, task, kind);
  }

  lemma TaskStepConserves(s: State, step: Step, s': State, kind: Kind)
    requires Inv(s) && Enabled(s, step) && s' == Next(s, step)
    requires step.AdminsArrive? || step.AdminsReject? || step.LookupArrives? || step.LookupRejects?
          || step.CreateArrives? || step.CreateRejects? || step.FinallyRuns?
    ensures
      Outcomes(s'.counters, kind) - Outcomes(s.counters, kind) == Handled(s'.tasks, kind) - Handled(s.tasks, kind)
  {
    var t := step.t;
    var task := s.tasks[t];
    assert TaskSound(s.rows, s.late, s.now, task);
    match step
    case LookupArrives(_) =>
      RecipientDoneConserves(s, t, Deduped(task.key.kind), kind);
      TaskMoveConserves(s, t, task.(phase := Creating), kind);
    case LookupRejects(_) => RecipientDoneConserves(s, t, FailedWrite(task.key.kind), kind);
    case CreateArrives(_) => RecipientDoneConserves(WriteRow(s, t), t, Sent(task.key.kind), kind);
    case CreateRejects(_, landed) => RecipientDoneConserves(if landed then WriteRow(s, t) else LeaveUnsettled(s, t), t, FailedWrite(task.key.kind), kind);
    case AdminsArrive(_, _) => TaskMoveConserves(s, t, s'.tasks[t], kind);
    case AdminsReject(_) => TaskMoveConserves(s, t, task.(phase := Finished), kind);
    case FinallyRuns(_) => TaskMoveConserves(s, t, task.(phase := Settled), kind);
  }

  lemma LaunchConserves(s: State, key: Key, kind: Kind)
    ensures LaunchAlert(s, key).counters == s.counters
    ensures Handled(LaunchAlert(s, key).tasks, kind) == Handled(s.tasks, kind)
  {
    var s' := LaunchAlert(s, key);
    if s' != s {
      assert s'.tasks[..|s'.tasks| - 1] == s.tasks;
    }
  }

  lemma CallConserves(s: State, step: Step, s': State, kind: Kind)
    requires Enabled(s, step) && s' == Next(s, step)
    requires step.CallSweepDegraded? || step.CallSweepRecovered? || step.CallExpiredComms?
    ensures Outcomes(s'.counters, kind) == Outcomes(s.counters, kind)
    ensures Handled(s'.tasks, kind) == Handled(s.tasks, kind)
  {
    var s1, key := CallIsSignalThenLaunch(s, step);
    LaunchConserves(s1, key, kind);
  }

  lemma StepConserves(s: State, step: Step, s': State, kind: Kind)
    requires Inv(s) && Enabled(s, step) && s' == Next(s, step)
    requires Outcomes(s.counters, kind) == Handled(s.tasks, kind)
    ensures Outcomes(s'.counters, kind) == Handled(s'.tasks, kind)
  {
    if step.CallSweepDegraded? || step.CallSweepRecovered? || step.CallExpiredComms? {
      CallConserves(s, step, s', kind);
    } else if step.AdminsArrive? || step.AdminsReject? || step.LookupArrives? || step.LookupRejects?
           || step.CreateArrives? || step.CreateRejects? || step.FinallyRuns? {
      TaskStepConserves(s, step, s', kind);
    }
  }

  /** Per type, sent + deduped + failed equals the recipients handled, in every reachable state. */
  lemma {:induction false} OutcomesCountRecipients(states: seq<State>, steps: seq<Step>, i: nat, kind: Kind)
    requires IsExecution(states, steps) && i < |states|
    ensures Outcomes(states[i].counters, kind) == Handled(states[i].tasks, kind)
  {
    if i > 0 {
      OutcomesCountRecipients(states, steps, i - 1, kind);
      RunKeepsInv(states, steps, i - 1);
      assert StepAt(states, steps, i - 1);
      StepConserves(states[i - 1], steps[i - 1], states[i], kind);
    }
  }

  /** How many rows of one type there are. */
  function RowsOfKind(rows: seq<Row>, kind: Kind): nat {
    if rows == [] then 0
    else RowsOfKind(rows[..|rows| - 1], kind) + if rows[|rows| - 1].key.kind == kind then 1 else 0
  }

  lemma TaskCounterStep(s: State, step: Step, s': State, kind: Kind)
    requires Enabled(s, step) && s' == Next(s, step)
    requires !step.CallSweepDegraded? && !step.CallSweepRecovered? && !step.CallExpiredComms?
    ensures
      Count(s'.counters, Sent(kind)) ==
        Count(s.counters, Sent(kind)) + if step.CreateArrives? && s.tasks[step.t].key.kind == kind then 1 else 0
    ensures
      Count(s'.counters, FailedWrite(kind)) ==
        Count(s.counters, FailedWrite(kind))
        + if (step.LookupRejects? || step.CreateRejects?) && s.tasks[step.t].key.kind == kind then 1 else 0
  {
  }

  lemma CounterStep(s: State, step: Step, s': State, kind: Kind)
    requires Enabled(s, step) && s' == Next(s, step)
    ensures
      Count(s'.counters, Sent(kind)) ==
        Count(s.counters, Sent(kind)) + if step.CreateArrives? && s.tasks[step.t].key.kind == kind then 1 else 0
    ensures
      Count(s'.counters, FailedWrite(kind)) ==
        Count(s.counters, FailedWrite(kind))
        + if (step.LookupRejects? || step.CreateRejects?) && s.tasks[step.t].key.kind == kind then 1 else 0
  {
    if step.CallSweepDegraded? || step.CallSweepRecovered? || step.CallExpiredComms? {
      var s1, key := CallIsSignalThenLaunch(s, step);
    } else {
      TaskCounterStep(s, step, s', kind);
    }
  }

  /** How many failed creates of one type may still land. */
  function UnsettledOfKind(writes: seq<Write>, kind: Kind): nat {
    if writes == [] then 0
    else UnsettledOfKind(writes[..|writes| - 1], kind) + if writes[|writes| - 1].key.kind == kind then 1 else 0
  }

  lemma {:induction false} OneWriteLess(writes: seq<Write>, w: nat, kind: Kind)
    requires w < |writes|
    ensures
      UnsettledOfKind(writes[..w] + writes[w + 1..], kind) == UnsettledOfKind(writes, kind) - if writes[w].key.kind == kind then 1 else 0
  {
    var last := |writes| - 1;
    var fewer := writes[..w] + writes[w + 1..];
    if w == last {
      assert fewer == writes[..last];
    } else {
      assert fewer[..|fewer| - 1] == writes[..last][..w] + writes[..last][w + 1..];
      OneWriteLess(writes[..last], w, kind);
    }
  }

  /** Rows of one type that are there or may still come. */
  function WrittenOrUnsettled(s: State, kind: Kind): nat {
    RowsOfKind(s.rows, kind) + UnsettledOfKind(s.unsettled, kind)
  }

  lemma WriteStep(s: State, step: Step, s': State, kind: Kind)
    requires Enabled(s, step) && s' == Next(s, step) && (step.CreateArrives? || step.CreateRejects?)
    ensures WrittenOrUnsettled(s', kind) == WrittenOrUnsettled(s, kind) + if s.tasks[step.t].key.kind == kind then 1 else 0
    ensures RowsOfKind(s'.rows, kind) == RowsOfKind(s.rows, kind) + if WritesRow(step) && s.tasks[step.t].key.kind == kind then 1 else 0
  {
    if WritesRow(step) {
      assert s'.rows[..|s'.rows| - 1] == s.rows;
    } else {
      assert s'.unsettled[..|s'.unsettled| - 1] == s.unsettled;
    }
  }

  lemma LandingMovesARow(s: State, w: nat, kind: Kind)
    requires w < |s.unsettled|
    ensures WrittenOrUnsettled(LandLate(s, w), kind) == WrittenOrUnsettled(s, kind)
    ensures RowsOfKind(LandLate(s, w).rows, kind) >= RowsOfKind(s.rows, kind)
  {
    OneWriteLess(s.unsettled, w, kind);
    assert LandLate(s, w).rows[..|s.rows|] == s.rows;
  }

  lemma RowsUntouched(s: State, step: Step, s': State)
    requires Enabled(s, step) && s' == Next(s, step)
    requires !step.CreateArrives? && !step.CreateRejects? && !step.RowLands?
    ensures s'.rows == s.rows && s'.unsettled == s.unsettled
  {
  }

  lemma RowsOfKindStep(s: State, step: Step, s': State, kind: Kind)
    requires Enabled(s, step) && s' == Next(s, step)
    ensures
      var sent := Count(s'.counters, Sent(kind)) - Count(s.counters, Sent(kind));
      var failed := Count(s'.counters, FailedWrite(kind)) - Count(s.counters, FailedWrite(kind));
      && sent <= RowsOfKind(s'.rows, kind) - RowsOfKind(s.rows, kind)
      && WrittenOrUnsettled(s', kind) - WrittenOrUnsettled(s, kind) <= sent + failed
  {
    CounterStep(s, step, s', kind);
    if step.CreateArrives? || step.CreateRejects? {
      WriteStep(s, step, s', kind);
    } else if step.RowLands? {
      LandingMovesARow(s, step.w, kind);
    } else {
      RowsUntouched(s, step, s');
    }
  }

  /**
   * Every alert counted as sent is a row, and every row the sink wrote, like every failed create
   * that may still land, is counted as sent or failed.
   */
  lemma {:induction false} SentMeansWritten(states: seq<State>, steps: seq<Step>, i: nat, kind: Kind)
    requires IsExecution(states, steps) && i < |states|
    ensures
      var written := RowsOfKind(states[i].rows, kind) - RowsOfKind(states[0].rows, kind);
      && Count(states[i].counters, Sent(kind)) <= written
      && written + UnsettledOfKind(states[i].unsettled, kind)
           <= Count(states[i].counters, Sent(kind)) + Count(states[i].counters, FailedWrite(kind))
  {
    if i > 0 {
      SentMeansWritten(states, steps, i - 1, kind);
      assert StepAt(states, steps, i - 1);
      RowsOfKindStep(states[i - 1], steps[i - 1], states[i], kind);
    }
  }

  // ---------------------------------------------------------------------------
  // Degraded episodes, told from the calls alone
  // ---------------------------------------------------------------------------

  /** Call `m` opened a degraded episode of `name` that no effective recovery has closed before `i`. */
  predicate OpensEpisode(states: seq<State>, steps: seq<Step>, m: nat, i: nat, name: string)
    requires |states| == |steps| + 1 && m < i < |states|
  {
    && steps[m] == CallSweepDegraded(name) && !states[m].stopped
    && forall l | m < l < i :: steps[l] == CallSweepRecovered(name) ==> states[l].stopped
  }

  lemma EpisodeStep(s: State, step: Step, s': State, name: string)
    requires Enabled(s, step) && s' == Next(s, step)
    ensures
      name in s'.degradedEpisode <==>
        || (step == CallSweepDegraded(name) && !s.stopped)
        || (name in s.degradedEpisode && (step == CallSweepRecovered(name) ==> s.stopped))
  {
  }

  /** `degradedEpisode` holds exactly the sweeps whose last effective signal was a degradation. */
  lemma {:induction false} EpisodeIsOpenExactlyWhen(states: seq<State>, steps: seq<Step>, i: nat, name: string)
    requires IsExecution(states, steps) && i < |states|
    ensures name in states[i].degradedEpisode <==> exists m | 0 <= m < i :: OpensEpisode(states, steps, m, i, name)
  {
    if i > 0 {
      EpisodeIsOpenExactlyWhen(states, steps, i - 1, name);
      assert StepAt(states, steps, i - 1);
      EpisodeStep(states[i - 1], steps[i - 1], states[i], name);
      forall m | 0 <= m < i - 1
        ensures OpensEpisode(states, steps, m, i, name) <==>
                  OpensEpisode(states, steps, m, i - 1, name) && (steps[i - 1] == CallSweepRecovered(name) ==> states[i - 1].stopped)
      {
      }
      if steps[i - 1] == CallSweepDegraded(name) && !states[i - 1].stopped {
        assert OpensEpisode(states, steps, i - 1, i, name);
      } else if name in states[i].degradedEpisode {
        var m :| 0 <= m < i - 1 && OpensEpisode(states, steps, m, i - 1, name);
        assert OpensEpisode(states, steps, m, i, name);
      }
    }
  }

  /** Call `m` was a database-unavailable failure of `name` that nothing has superseded before `i`. */
  predicate DbDownSince(states: seq<State>, steps: seq<Step>, m: nat, i: nat, name: string)
    requires |states| == |steps| + 1 && m < i < |states|
  {
    && FailsWith(steps[m], name, true)
    && forall l | m < l < i :: !FailsWith(steps[l], name, false) && (steps[l] == CallSweepRecovered(name) ==> states[l].stopped)
  }

  predicate FailsWith(step: Step, name: string, dbUnavailable: bool) {
    step.CallSweepFailure? && step.name == name && IsDbUnavailableFailure(step.state, step.errorClass) == dbUnavailable
  }

  lemma DbDownStep(s: State, step: Step, s': State, name: string)
    requires Enabled(s, step) && s' == Next(s, step)
    ensures
      name in s'.dbDegraded <==>
        || FailsWith(step, name, true)
        || (name in s.dbDegraded && !FailsWith(step, name, false) && (step == CallSweepRecovered(name) ==> s.stopped))
  {
  }

  /** `dbDegraded` holds exactly the sweeps whose latest failure since the last recovery was the database's. */
  lemma {:induction false} DbDownExactlyWhen(states: seq<State>, steps: seq<Step>, i: nat, name: string)
    requires IsExecution(states, steps) && i < |states|
    ensures name in states[i].dbDegraded <==> exists m | 0 <= m < i :: DbDownSince(states, steps, m, i, name)
  {
    if i > 0 {
      DbDownExactlyWhen(states, steps, i - 1, name);
      assert StepAt(states, steps, i - 1);
      DbDownStep(states[i - 1], steps[i - 1], states[i], name);
      forall m | 0 <= m < i - 1
        ensures DbDownSince(states, steps, m, i, name) <==>
                  DbDownSince(states, steps, m, i - 1, name) && !FailsWith(steps[i - 1], name, false) && (steps[i - 1] == CallSweepRecovered(name) ==> states[i - 1].stopped)
      {
      }
      if FailsWith(steps[i - 1], name, true) {
        assert DbDownSince(states, steps, i - 1, i, name);
      } else if name in states[i].dbDegraded {
        var m :| 0 <= m < i - 1 && DbDownSince(states, steps, m, i - 1, name);
        assert DbDownSince(states, steps, m, i, name);
      }
    }
  }

  /** Exactly which calls launch which alert. */
  lemma LaunchStep(s: State, step: Step, key: Key)
    requires Enabled(s, step)
    ensures
      Launches(s, step, key) <==>
        && !s.stopped && key !in s.inFlight
        && match key.kind
           case Degraded => step == CallSweepDegraded(key.sweep) && key.sweep !in s.dbDegraded
           case Recovered => step == CallSweepRecovered(key.sweep) && key.sweep in s.degradedEpisode
           case Expiry => step.CallExpiredComms? && step.name == key.sweep && step.total > 0
  {
  }

  /**
   * A RECOVERED alert launches only inside an open episode: after the last recovery signal that
   * counted there was a `sweepDegraded` call. So between two RECOVERED launches there is one.
   */
  lemma RecoveredClosesAnEpisode(states: seq<State>, steps: seq<Step>, j: nat, name: string) returns (m: nat)
    requires IsExecution(states, steps) && j < |steps| && Enabled(states[j], steps[j])
    requires Launches(states[j], steps[j], Key(Recovered, name))
    ensures m < j && steps[m] == CallSweepDegraded(name)
    ensures forall i | 0 <= i < j && Enabled(states[i], steps[i]) && Launches(states[i], steps[i], Key(Recovered, name)) :: i < m
  {
    LaunchStep(states[j], steps[j], Key(Recovered, name));
    EpisodeIsOpenExactlyWhen(states, steps, j, name);
    m :| 0 <= m < j && OpensEpisode(states, steps, m, j, name);
    forall i | 0 <= i < j && Enabled(states[i], steps[i]) && Launches(states[i], steps[i], Key(Recovered, name))
      ensures i < m
    {
      LaunchStep(states[i], steps[i], Key(Recovered, name));
    }
  }

  /** No DEGRADED alert launches while the sweep's latest failure since its recovery is the database's. */
  lemma DegradedNeverLaunchesDuringDbOutage(states: seq<State>, steps: seq<Step>, j: nat, name: string, m: nat)
    requires IsExecution(states, steps) && m < j < |steps| && Enabled(states[j], steps[j])
    requires Launches(states[j], steps[j], Key(Degraded, name))
    requires FailsWith(steps[m], name, true)
    ensures exists l | m < l < j :: FailsWith(steps[l], name, false) || steps[l] == CallSweepRecovered(name)
  {
    LaunchStep(states[j], steps[j], Key(Degraded, name));
    DbDownExactlyWhen(states, steps, j, name);
    assert !DbDownSince(states, steps, m, j, name);
  }
}
