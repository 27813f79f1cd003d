/**
 * The ordered worker shutdown (src/workerShutdown.ts) as a protocol of atomic steps over a
 * virtual millisecond clock.
 *
 * Every operation may hang, reject, throw at once or settle late; a synchronous throw is a
 * rejection at the very instant the operation starts, because the source wraps each call.
 * The three phases the coordinator does not bound itself (scheduler stop, closeQueues,
 * forceJoin) are bounded by the contracts of their callees: the clock cannot pass their bound.
 *
 * Scheduling: each settlement, answer or timer arrives in a callback of its own, and the
 * microtasks that it queues run before the next one arrives. The quits that the source starts
 * in microtasks of their own (src/workerShutdown.ts:146-150) therefore start with the test of
 * `workerPhaseTimedOut`, in one step.
 */
module Shutdown {
  import opened Base

  const ALERT_SINK_PHASE_TIMEOUT_MS: nat := 6_000
  /** The bound closeQueues keeps (src/api/queues/index.ts). */
  const QUEUE_CLOSE_TIMEOUT_MS: nat := 5_000

  datatype Deps = Deps(
    hasScheduler: bool, hasAlertSink: bool, workers: nat, connections: nat,
    stopDrainMs: nat, workerCloseTimeoutMs: nat, prismaDisconnectTimeoutMs: nat, forceJoinTimeoutMs: nat)

  datatype Phase = StoppingScheduler | StoppingSink | ClosingWorkers | ClosingQueues | DisconnectingPrisma | Joining | Returned

  datatype OpStatus = NotStarted | InFlight | Fulfilled | Rejected
  /** The race inside boundedPhase. */
  datatype Race = Running | WorkWon | TimerWon

  datatype SinkOutcome = SinkOk | SinkTimeout | SinkError
  datatype PhaseOutcome = PhaseOk | PhaseTimeout

  datatype Event =
    | Started(phase: Phase)
    | StopReported(drained: bool)
    | SinkSettled(ok: bool)
    | CloseSettled(worker: nat)
    | QuitStarted(conn: nat)
    | QuitSettled(conn: nat)
    | ForceDisconnected(conn: nat)
    | PrismaSettled
    | JoinReported(joined: bool)
    | TimerFired(phase: Phase)

  datatype State = State(
    phase: Phase,
    now: nat,
    deadline: nat,
    race: Race,
    drained: bool,
    sinkRejected: bool,
    alertSinkPhase: Option<SinkOutcome>,
    workerPhaseTimedOut: bool,
    workerClosePhase: Option<PhaseOutcome>,
    prismaPhase: Option<PhaseOutcome>,
    joined: bool,
    sinkStop: OpStatus,
    closes: seq<OpStatus>,
    closesHandled: bool,
    quits: seq<OpStatus>,
    prisma: OpStatus,
    log: seq<Event>)

  // ---------------------------------------------------------------------------
  // Phases and bounds
  // ---------------------------------------------------------------------------

  predicate Present(d: Deps, p: Phase) {
    match p
    case StoppingScheduler => d.hasScheduler
    case StoppingSink => d.hasAlertSink
    case Joining => d.hasScheduler
    case _ => true
  }

  function Bound(d: Deps, p: Phase): nat {
    match p
    case StoppingScheduler => d.stopDrainMs
    case StoppingSink => ALERT_SINK_PHASE_TIMEOUT_MS
    case ClosingWorkers => d.workerCloseTimeoutMs
    case ClosingQueues => QUEUE_CLOSE_TIMEOUT_MS
    case DisconnectingPrisma => d.prismaDisconnectTimeoutMs
    case Joining => d.forceJoinTimeoutMs
    case Returned => 0
  }

  function Rank(p: Phase): nat {
    match p
    case StoppingScheduler => 0
    case StoppingSink => 1
    case ClosingWorkers => 2
    case ClosingQueues => 3
    case DisconnectingPrisma => 4
    case Joining => 5
    case Returned => 6
  }

  function FirstPhase(d: Deps): Phase {
    if d.hasScheduler then StoppingScheduler else if d.hasAlertSink then StoppingSink else ClosingWorkers
  }

  function NextPhase(d: Deps, p: Phase): Phase {
    match p
    case StoppingScheduler => if d.hasAlertSink then StoppingSink else ClosingWorkers
    case StoppingSink => ClosingWorkers
    case ClosingWorkers => ClosingQueues
    case ClosingQueues => DisconnectingPrisma
    case DisconnectingPrisma => if d.hasScheduler then Joining else Returned
    case Joining => Returned
    case Returned => Returned
  }

  /** Raced against a timer by boundedPhase. */
  predicate Raced(p: Phase) {
    p == StoppingSink || p == ClosingWorkers || p == DisconnectingPrisma
  }

  // ---------------------------------------------------------------------------
  // The atomic steps
  // ---------------------------------------------------------------------------

  function Copies(n: nat, op: OpStatus): (ops: seq<OpStatus>)
    ensures |ops| == n && forall i | 0 <= i < n :: ops[i] == op
  {
    if n == 0 then [] else Copies(n - 1, op) + [op]
  }

  /** Start phase `p`: arm its bound and issue its operation. */
  function Enter(d: Deps, s: State, p: Phase): State {
    s.(phase := p, deadline := s.now + Bound(d, p), race := Running, log := s.log + [Started(p)],
       sinkStop := if p == StoppingSink then InFlight else s.sinkStop,
       closes := if p == ClosingWorkers then Copies(d.workers, InFlight) else s.closes,
       prisma := if p == DisconnectingPrisma then InFlight else s.prisma)
  }

  function Begin(d: Deps, now: nat): State {
    Enter(d, State(StoppingScheduler, now, now, Running, true, false, None, false, None, None, true,
                   NotStarted, Copies(d.workers, NotStarted), false, Copies(d.connections, NotStarted), NotStarted, []),
          FirstPhase(d))
  }

  function SettleSink(s: State, ok: bool): State {
    s.(sinkStop := if ok then Fulfilled else Rejected,
       sinkRejected := !ok,
       race := if s.phase == StoppingSink && s.race == Running then WorkWon else s.race,
       log := s.log + [SinkSettled(ok)])
  }

  /** A worker's close settled either way; its rejection is swallowed. */
  function SettleClose(s: State, w: nat): State
    requires w < |s.closes|
  {
    s.(closes := s.closes[w := Fulfilled], log := s.log + [CloseSettled(w)])
  }

  function Quitting(n: nat): seq<Event> {
    seq(n, (i: nat) => QuitStarted(i))
  }

  function Disconnecting(n: nat): seq<Event> {
    seq(n, (i: nat) => ForceDisconnected(i))
  }

  /** The `.then` after every close: start the quits, unless the phase already timed out. */
  function AfterCloses(s: State): State {
    if s.workerPhaseTimedOut then s.(closesHandled := true)
    else
      s.(closesHandled := true, quits := Copies(|s.quits|, InFlight), log := s.log + Quitting(|s.quits|))
  }

  function SettleQuit(s: State, c: nat): State
    requires c < |s.quits|
  {
    s.(quits := s.quits[c := Fulfilled], log := s.log + [QuitSettled(c)])
  }

  function SettlePrisma(s: State): State {
    s.(prisma := Fulfilled,
       race := if s.phase == DisconnectingPrisma && s.race == Running then WorkWon else s.race,
       log := s.log + [PrismaSettled])
  }

  /** The log entries that the end of the current phase produces. */
  function Report(d: Deps, s: State, answer: Option<bool>): seq<Event> {
    match s.phase
    case StoppingScheduler => [StopReported(answer == Some(true))]
    case Joining => [JoinReported(answer == Some(true))]
    case ClosingWorkers => if s.race == TimerWon then Disconnecting(d.connections) else []
    case _ => []
  }

  /**
   * What the coordinator records when the current phase is over. `answer` is what
   * `scheduler.stop()` or `forceJoin` answered; None stands for a rejection or a throw.
   */
  function Conclude(d: Deps, s: State, answer: Option<bool>): State {
    var timedOut := s.race == TimerWon;
    var outcome := Some(if timedOut then PhaseTimeout else PhaseOk);
    s.(drained := if s.phase == StoppingScheduler then answer == Some(true) else s.drained,
       alertSinkPhase :=
         if s.phase != StoppingSink then s.alertSinkPhase
         else Some(if timedOut then SinkTimeout else if s.sinkRejected then SinkError else SinkOk),
       workerClosePhase := if s.phase == ClosingWorkers then outcome else s.workerClosePhase,
       workerPhaseTimedOut := s.workerPhaseTimedOut || (s.phase == ClosingWorkers && timedOut),
       prismaPhase := if s.phase == DisconnectingPrisma then outcome else s.prismaPhase,
       joined := if s.phase == Joining then answer == Some(true) else s.joined,
       log := s.log + Report(d, s, answer))
  }

  /** The code from the end of one awaited phase up to the start of the next. */
  function EndPhase(d: Deps, s: State, answer: Option<bool>): State {
    var s1 := Conclude(d, s, answer);
    Enter(d, s1, NextPhase(d, s.phase))
  }

  // ---------------------------------------------------------------------------
  // Runs
  // ---------------------------------------------------------------------------

  datatype Step =
    | Tick
    | PhaseEnds(answer: Option<bool>)
    | SinkSettles(ok: bool)
    | CloseSettles(w: nat)
    | AllClosesSettled
    | QuitSettles(c: nat)
    | WorkersDone
    | PrismaSettles
    | TimerFires

  predicate AllSettled(ops: seq<OpStatus>) {
    forall i | 0 <= i < |ops| :: ops[i] == Fulfilled
  }

  predicate ClosesDue(s: State) {
    Rank(s.phase) >= 2 && AllSettled(s.closes) && !s.closesHandled
  }

  predicate WorkersDue(s: State) {
    s.phase == ClosingWorkers && s.race == Running && s.closesHandled && AllSettled(s.quits)
  }

  /** A microtask is queued: no event of the environment arrives before it has run. */
  predicate MicrotaskDue(s: State) {
    ClosesDue(s) || WorkersDue(s) || (Raced(s.phase) && s.race != Running)
  }

  predicate Enabled(s: State, step: Step) {
    match step
    case PhaseEnds(_) => s.phase != Returned && if Raced(s.phase) then s.race != Running else !MicrotaskDue(s)
    case AllClosesSettled => ClosesDue(s)
    case WorkersDone => WorkersDue(s)
    case Tick => !MicrotaskDue(s) && s.phase != Returned && s.now < s.deadline
    case SinkSettles(_) => !MicrotaskDue(s) && s.sinkStop == InFlight
    case CloseSettles(w) => !MicrotaskDue(s) && w < |s.closes| && s.closes[w] == InFlight
    case QuitSettles(c) => !MicrotaskDue(s) && c < |s.quits| && s.quits[c] == InFlight
    case PrismaSettles => !MicrotaskDue(s) && s.prisma == InFlight
    case TimerFires => !MicrotaskDue(s) && Raced(s.phase) && s.now == s.deadline
  }

  function Next(d: Deps, s: State, step: Step): State
    requires Enabled(s, step)
  {
    match step
    case Tick => s.(now := s.now + 1)
    case PhaseEnds(answer) => EndPhase(d, s, answer)
    case SinkSettles(ok) => SettleSink(s, ok)
    case CloseSettles(w) => SettleClose(s, w)
    case AllClosesSettled => AfterCloses(s)
    case QuitSettles(c) => SettleQuit(s, c)
    case WorkersDone => s.(race := WorkWon)
    case PrismaSettles => SettlePrisma(s)
    case TimerFires => s.(race := TimerWon, log := s.log + [TimerFired(s.phase)])
  }

  predicate StepAt(d: Deps, states: seq<State>, steps: seq<Step>, i: nat)
    requires |states| == |steps| + 1 && i < |steps|
  {
    Enabled(states[i], steps[i]) && states[i + 1] == Next(d, states[i], steps[i])
  }

  predicate IsExecution(d: Deps, states: seq<State>, steps: seq<Step>) {
    && |states| == |steps| + 1 && states[0] == Begin(d, states[0].now)
    && forall i | 0 <= i < |steps| :: StepAt(d, states, steps, i)
  }

  // ---------------------------------------------------------------------------
  // The invariant
  // ---------------------------------------------------------------------------

  /** The phase before `p`, for these dependencies. */
  function PreviousPhase(d: Deps, p: Phase): (q: Option<Phase>)
    ensures q.Some? ==> Rank(q.value) < Rank(p)
    decreases Rank(p)
  {
    match p
    case StoppingScheduler => None
    case StoppingSink => if d.hasScheduler then Some(StoppingScheduler) else None
    case ClosingWorkers => if d.hasAlertSink then Some(StoppingSink) else PreviousPhase(d, StoppingSink)
    case ClosingQueues => Some(ClosingWorkers)
    case DisconnectingPrisma => Some(ClosingQueues)
    case Joining => Some(DisconnectingPrisma)
    case Returned => if d.hasScheduler then Some(Joining) else Some(DisconnectingPrisma)
  }

  /** The locked order up to and including `p`. */
  function LockedOrder(d: Deps, p: Phase): seq<Phase>
    decreases Rank(p)
  {
    (match PreviousPhase(d, p) case None => [] case Some(q) => LockedOrder(d, q)) + [p]
  }

  /** The sum of the bounds of those phases. */
  function BoundsThrough(d: Deps, p: Phase): nat
    decreases Rank(p)
  {
    (match PreviousPhase(d, p) case None => 0 case Some(q) => BoundsThrough(d, q)) + Bound(d, p)
  }

  /** The phases in the order in which the log says they started. */
  function PhasesStarted(log: seq<Event>): seq<Phase> {
    if log == [] then []
    else
      var last := log[|log| - 1];
      PhasesStarted(log[..|log| - 1]) + if last.Started? then [last.phase] else []
  }

  predicate OnSchedule(d: Deps, s: State, begun: nat) {
    && s.now <= s.deadline <= begun + BoundsThrough(d, s.phase)
    && PhasesStarted(s.log) == LockedOrder(d, s.phase)
    && Present(d, s.phase)
  }

  /** The worker phase, read back from its operations and the log. */
  predicate WorkersHonest(d: Deps, s: State) {
    && |s.closes| == d.workers && |s.quits| == d.connections
    && (forall w | 0 <= w < d.workers :: s.closes[w] == Fulfilled ==> CloseSettled(w) in s.log)
    && (forall c | 0 <= c < d.connections :: s.quits[c] == Fulfilled ==> QuitSettled(c) in s.log)
    && (s.closesHandled ==> Rank(s.phase) >= 2 && AllSettled(s.closes))
    && (s.phase == ClosingWorkers && s.race == TimerWon ==> !ClosesDue(s))
    && (s.workerClosePhase.Some? <==> Rank(s.phase) > 2)
    && (s.workerPhaseTimedOut <==> s.workerClosePhase == Some(PhaseTimeout))
    && (s.workerClosePhase == Some(PhaseOk) || (s.phase == ClosingWorkers && s.race == WorkWon) ==>
          s.closesHandled && AllSettled(s.quits))
    && (TimerFired(ClosingWorkers) in s.log <==>
          s.workerPhaseTimedOut || (s.phase == ClosingWorkers && s.race == TimerWon))
  }

  /** Sockets are destroyed only on a timed-out worker phase, and then every one of them is. */
  predicate DisconnectsHonest(d: Deps, s: State) {
    && (forall e | e in s.log :: e.ForceDisconnected? ==> s.workerPhaseTimedOut)
    && (s.workerPhaseTimedOut ==> forall c | 0 <= c < d.connections :: ForceDisconnected(c) in s.log)
  }

  /** Position `i` is no quit, or comes after every close settled and before the timer and any forced disconnect. */
  predicate QuitInOrder(d: Deps, log: seq<Event>, i: nat)
    requires i < |log|
  {
    log[i].QuitStarted? ==>
      && (forall w | 0 <= w < d.workers :: CloseSettled(w) in log[..i])
      && (forall j | 0 <= j < i :: !log[j].ForceDisconnected? && log[j] != TimerFired(ClosingWorkers))
  }

  predicate QuitsInOrder(d: Deps, log: seq<Event>) {
    forall i | 0 <= i < |log| :: QuitInOrder(d, log, i)
  }

  predicate SinkHonest(d: Deps, s: State) {
    && (s.sinkStop == NotStarted <==> !d.hasAlertSink || Rank(s.phase) < 1)
    && (s.sinkStop == Fulfilled <==> SinkSettled(true) in s.log)
    && (s.sinkStop == Rejected <==> SinkSettled(false) in s.log)
    && (s.sinkRejected <==> s.sinkStop == Rejected)
    && (s.phase == StoppingSink ==>
          && (s.race == Running ==> s.sinkStop == InFlight)
          && (s.race == WorkWon ==> s.sinkStop != InFlight))
    && (TimerFired(StoppingSink) in s.log <==>
          s.alertSinkPhase == Some(SinkTimeout) || (s.phase == StoppingSink && s.race == TimerWon))
    && (s.alertSinkPhase.Some? <==> d.hasAlertSink && Rank(s.phase) > 1)
    && (s.alertSinkPhase == Some(SinkOk) ==> s.sinkStop == Fulfilled)
    && (s.alertSinkPhase == Some(SinkError) ==> s.sinkStop == Rejected)
  }

  predicate PrismaHonest(s: State) {
    && (s.prisma == NotStarted <==> Rank(s.phase) < 4)
    && s.prisma != Rejected
    && (s.prisma == Fulfilled <==> PrismaSettled in s.log)
    && (s.phase == DisconnectingPrisma ==>
          && (s.race == Running ==> s.prisma == InFlight)
          && (s.race == WorkWon ==> s.prisma == Fulfilled))
    && (TimerFired(DisconnectingPrisma) in s.log <==>
          s.prismaPhase == Some(PhaseTimeout) || (s.phase == DisconnectingPrisma && s.race == TimerWon))
    && (s.prismaPhase.Some? <==> Rank(s.phase) > 4)
    && (s.prismaPhase == Some(PhaseOk) ==> s.prisma == Fulfilled)
  }

  predicate AnswersHonest(d: Deps, s: State) {
    && (Rank(s.phase) == 0 || !d.hasScheduler ==> s.drained && StopReported(true) !in s.log && StopReported(false) !in s.log)
    && (Rank(s.phase) > 0 && d.hasScheduler ==> StopReported(s.drained) in s.log && StopReported(!s.drained) !in s.log)
    && (Rank(s.phase) <= 5 || !d.hasScheduler ==> s.joined && JoinReported(true) !in s.log && JoinReported(false) !in s.log)
    && (Rank(s.phase) > 5 && d.hasScheduler ==> JoinReported(s.joined) in s.log && JoinReported(!s.joined) !in s.log)
  }

  predicate Inv(d: Deps, s: State, begun: nat) {
    && OnSchedule(d, s, begun) && WorkersHonest(d, s) && DisconnectsHonest(d, s) && QuitsInOrder(d, s.log)
    && SinkHonest(d, s) && PrismaHonest(s) && AnswersHonest(d, s)
  }

  // ---------------------------------------------------------------------------
  // Every step keeps it
  // ---------------------------------------------------------------------------

  lemma InBatches(n: nat, e: Event)
    ensures e in Quitting(n) <==> e.QuitStarted? && e.conn < n
    ensures e in Disconnecting(n) <==> e.ForceDisconnected? && e.conn < n
  {
    if e.QuitStarted? && e.conn < n { assert Quitting(n)[e.conn] == e; }
    if e.ForceDisconnected? && e.conn < n { assert Disconnecting(n)[e.conn] == e; }
  }

  lemma {:induction false} NoPhaseStartsIn(log: seq<Event>, batch: seq<Event>)
    requires forall e | e in batch :: !e.Started?
    ensures PhasesStarted(log + batch) == PhasesStarted(log)
  {
    if batch == [] {
      assert log + batch == log;
    } else {
      var whole := log + batch;
      assert whole[..|whole| - 1] == log + batch[..|batch| - 1];
      NoPhaseStartsIn(log, batch[..|batch| - 1]);
    }
  }

  lemma PhaseStarts(log: seq<Event>, p: Phase)
    ensures PhasesStarted(log + [Started(p)]) == PhasesStarted(log) + [p]
  {
  }

  lemma NextFollows(d: Deps, p: Phase, q: Phase)
    requires p != Returned && Present(d, p) && q == NextPhase(d, p)
    ensures Present(d, q)
    ensures LockedOrder(d, q) == LockedOrder(d, p) + [q]
    ensures BoundsThrough(d, q) == BoundsThrough(d, p) + Bound(d, q)
  {
  }

  lemma EndPhaseOnSchedule(d: Deps, s: State, answer: Option<bool>, begun: nat)
    requires OnSchedule(d, s, begun) && s.phase != Returned
    ensures OnSchedule(d, EndPhase(d, s, answer), begun)
  {
    NextFollows(d, s.phase, NextPhase(d, s.phase));
    NoPhaseStartsIn(s.log, Report(d, s, answer));
    PhaseStarts(s.log + Report(d, s, answer), NextPhase(d, s.phase));
  }

  lemma StepOnSchedule(d: Deps, s: State, step: Step, s': State, begun: nat)
    requires OnSchedule(d, s, begun) && Enabled(s, step) && s' == Next(d, s, step)
    ensures OnSchedule(d, s', begun)
  {
    match step
    case PhaseEnds(answer) => EndPhaseOnSchedule(d, s, answer, begun);
    case AllClosesSettled => NoPhaseStartsIn(s.log, Quitting(|s.quits|));
    case SinkSettles(ok) => NoPhaseStartsIn(s.log, [SinkSettled(ok)]);
    case CloseSettles(w) => NoPhaseStartsIn(s.log, [CloseSettled(w)]);
    case QuitSettles(c) => NoPhaseStartsIn(s.log, [QuitSettled(c)]);
    case PrismaSettles => NoPhaseStartsIn(s.log, [PrismaSettled]);
    case TimerFires => NoPhaseStartsIn(s.log, [TimerFired(s.phase)]);
    case _ =>
  }

  lemma StepKeepsWorkersHonest(d: Deps, s: State, step: Step, s': State)
    requires WorkersHonest(d, s) && Enabled(s, step) && s' == Next(d, s, step) && !step.PhaseEnds?
    ensures WorkersHonest(d, s')
  {
  }

  /** The event that a step logs, other than the batches. */
  predicate Logs(s: State, step: Step, e: Event) {
    match step
    case SinkSettles(ok) => e == SinkSettled(ok)
    case CloseSettles(w) => e == CloseSettled(w)
    case QuitSettles(c) => e == QuitSettled(c)
    case PrismaSettles => e == PrismaSettled
    case TimerFires => e == TimerFired(s.phase)
    case _ => false
  }

  lemma LogStep(d: Deps, s: State, step: Step, s': State, e: Event)
    requires Enabled(s, step) && s' == Next(d, s, step) && !step.PhaseEnds? && !e.QuitStarted?
    ensures s'.phase == s.phase && s'.drained == s.drained && s'.joined == s.joined && s'.alertSinkPhase == s.alertSinkPhase
    ensures e in s'.log <==> e in s.log || Logs(s, step, e)
  {
    if step.AllClosesSettled? {
      InBatches(|s.quits|, e);
    }
  }

  lemma StepKeepsSinkHonest(d: Deps, s: State, step: Step, s': State)
    requires SinkHonest(d, s) && Present(d, s.phase) && Enabled(s, step) && s' == Next(d, s, step) && !step.PhaseEnds?
    ensures SinkHonest(d, s')
  {
    if step.SinkSettles? {
      assert s' == SettleSink(s, step.ok);
    } else {
      LogStep(d, s, step, s', SinkSettled(true));
      LogStep(d, s, step, s', SinkSettled(false));
      LogStep(d, s, step, s', TimerFired(StoppingSink));
      assert s'.sinkStop == s.sinkStop && s'.sinkRejected == s.sinkRejected;
      assert step.TimerFires? || s'.race == s.race || s.phase != StoppingSink;
    }
  }

  lemma StepKeepsPrismaHonest(d: Deps, s: State, step: Step, s': State)
    requires PrismaHonest(s) && Enabled(s, step) && s' == Next(d, s, step) && !step.PhaseEnds?
    ensures PrismaHonest(s')
  {
  }

  lemma StepKeepsAnswersHonest(d: Deps, s: State, step: Step, s': State)
    requires AnswersHonest(d, s) && Enabled(s, step) && s' == Next(d, s, step) && !step.PhaseEnds?
    ensures AnswersHonest(d, s')
  {
    LogStep(d, s, step, s', StopReported(true));
    LogStep(d, s, step, s', StopReported(false));
    LogStep(d, s, step, s', JoinReported(true));
    LogStep(d, s, step, s', JoinReported(false));
  }

  lemma EndPhaseKeepsWorkersHonest(d: Deps, s: State, answer: Option<bool>)
    requires WorkersHonest(d, s) && Enabled(s, PhaseEnds(answer))
    ensures WorkersHonest(d, EndPhase(d, s, answer))
  {
  }

  lemma EndPhaseKeepsSinkHonest(d: Deps, s: State, answer: Option<bool>)
    requires SinkHonest(d, s) && Present(d, s.phase) && Enabled(s, PhaseEnds(answer))
    ensures SinkHonest(d, EndPhase(d, s, answer))
  {
  }

  lemma EndPhaseKeepsPrismaHonest(d: Deps, s: State, answer: Option<bool>)
    requires PrismaHonest(s) && Enabled(s, PhaseEnds(answer))
    ensures PrismaHonest(EndPhase(d, s, answer))
  {
  }

  lemma EndPhaseKeepsAnswersHonest(d: Deps, s: State, answer: Option<bool>)
    requires AnswersHonest(d, s) && Present(d, s.phase) && Enabled(s, PhaseEnds(answer))
    ensures AnswersHonest(d, EndPhase(d, s, answer))
  {
  }

  lemma StepKeepsDisconnectsHonest(d: Deps, s: State, step: Step, s': State)
    requires WorkersHonest(d, s) && DisconnectsHonest(d, s) && Enabled(s, step) && s' == Next(d, s, step)
    ensures DisconnectsHonest(d, s')
  {
    if step.PhaseEnds? {
      forall e ensures e in Report(d, s, step.answer) && e.ForceDisconnected? ==> s'.workerPhaseTimedOut {
        InBatches(d.connections, e);
      }
      forall c: nat | s.phase == ClosingWorkers && s.race == TimerWon && c < d.connections
        ensures ForceDisconnected(c) in s'.log
      {
        InBatches(d.connections, ForceDisconnected(c));
      }
    } else if step.AllClosesSettled? {
      forall e ensures e in Quitting(|s.quits|) ==> !e.ForceDisconnected? {
        InBatches(|s.quits|, e);
      }
    }
  }

  /** Appending events keeps the order, as long as no quit is among them too early. */
  lemma AppendInOrder(d: Deps, log: seq<Event>, batch: seq<Event>)
    requires QuitsInOrder(d, log)
    requires (exists e | e in batch :: e.QuitStarted?) ==>
               && (forall w | 0 <= w < d.workers :: CloseSettled(w) in log)
               && (forall e | e in log + batch :: !e.ForceDisconnected? && e != TimerFired(ClosingWorkers))
    ensures QuitsInOrder(d, log + batch)
  {
    var whole := log + batch;
    forall i | 0 <= i < |whole| ensures QuitInOrder(d, whole, i) {
      if i < |log| {
        assert QuitInOrder(d, log, i);
        assert whole[..i] == log[..i];
      } else if whole[i].QuitStarted? {
        assert whole[i] in batch;
        assert whole[..i] == log + batch[..i - |log|];
        forall j | 0 <= j < i ensures !whole[j].ForceDisconnected? && whole[j] != TimerFired(ClosingWorkers) {
          assert whole[j] in log + batch;
        }
      }
    }
  }

  lemma StepKeepsQuitsInOrder(d: Deps, s: State, step: Step, s': State)
    requires WorkersHonest(d, s) && DisconnectsHonest(d, s) && QuitsInOrder(d, s.log)
    requires Enabled(s, step) && s' == Next(d, s, step)
    ensures QuitsInOrder(d, s'.log)
  {
    match step
    case Tick =>
    case WorkersDone =>
    case AllClosesSettled =>
      forall e ensures e in Quitting(|s.quits|) ==> e.QuitStarted? {
        InBatches(|s.quits|, e);
      }
      if !s.workerPhaseTimedOut {
        AppendInOrder(d, s.log, Quitting(|s.quits|));
      }
    case PhaseEnds(answer) =>
      forall e ensures e in Report(d, s, answer) ==> !e.QuitStarted? {
        InBatches(d.connections, e);
      }
      AppendInOrder(d, s.log, Report(d, s, answer));
      AppendInOrder(d, s.log + Report(d, s, answer), [Started(s'.phase)]);
    case _ => AppendInOrder(d, s.log, s'.log[|s.log|..]);
  }

  lemma StepKeepsInv(d: Deps, s: State, step: Step, s': State, begun: nat)
    requires Inv(d, s, begun) && Enabled(s, step) && s' == Next(d, s, step)
    ensures Inv(d, s', begun)
  {
    StepOnSchedule(d, s, step, s', begun);
    StepKeepsDisconnectsHonest(d, s, step, s');
    StepKeepsQuitsInOrder(d, s, step, s');
    if step.PhaseEnds? {
      EndPhaseKeepsWorkersHonest(d, s, step.answer);
      EndPhaseKeepsSinkHonest(d, s, step.answer);
      EndPhaseKeepsPrismaHonest(d, s, step.answer);
      EndPhaseKeepsAnswersHonest(d, s, step.answer);
    } else {
      StepKeepsWorkersHonest(d, s, step, s');
      StepKeepsSinkHonest(d, s, step, s');
      StepKeepsPrismaHonest(d, s, step, s');
      StepKeepsAnswersHonest(d, s, step, s');
    }
  }

  lemma BeginKeepsInv(d: Deps, now: nat)
    ensures Inv(d, Begin(d, now), now)
  {
    PhaseStarts([], FirstPhase(d));
  }

  lemma {:induction false} RunKeepsInv(d: Deps, states: seq<State>, steps: seq<Step>, i: nat)
    requires IsExecution(d, states, steps) && i < |states|
    ensures Inv(d, states[i], states[0].now)
  {
    if i == 0 {
      BeginKeepsInv(d, states[0].now);
    } else {
      RunKeepsInv(d, states, steps, i - 1);
      assert StepAt(d, states, steps, i - 1);
      StepKeepsInv(d, states[i - 1], steps[i - 1], states[i], states[0].now);
    }
  }

  // ---------------------------------------------------------------------------
  // What holds over whole shutdowns
  // ---------------------------------------------------------------------------

  lemma WholeLockedOrder(d: Deps)
    ensures
      LockedOrder(d, Returned) ==
        (if d.hasScheduler then [StoppingScheduler] else []) + (if d.hasAlertSink then [StoppingSink] else [])
        + [ClosingWorkers, ClosingQueues, DisconnectingPrisma]
        + (if d.hasScheduler then [Joining] else []) + [Returned]
  {
  }

  /** Whatever hangs, rejects or settles late, the phases start in the locked order and none is skipped. */
  lemma PhasesStartInLockedOrder(d: Deps, states: seq<State>, steps: seq<Step>, i: nat)
    requires IsExecution(d, states, steps) && i < |states|
    ensures PhasesStarted(states[i].log) == LockedOrder(d, states[i].phase)
  {
    RunKeepsInv(d, states, steps, i);
  }

  /** A quit starts only after every worker close settled, and never after the phase timer fired or a forced disconnect. */
  lemma QuitsStartInBetween(d: Deps, states: seq<State>, steps: seq<Step>, i: nat, at: nat)
    requires IsExecution(d, states, steps) && i < |states| && at < |states[i].log| && states[i].log[at].QuitStarted?
    ensures forall w | 0 <= w < d.workers :: CloseSettled(w) in states[i].log[..at]
    ensures forall j | 0 <= j < at :: !states[i].log[j].ForceDisconnected? && states[i].log[j] != TimerFired(ClosingWorkers)
  {
    RunKeepsInv(d, states, steps, i);
    assert QuitInOrder(d, states[i].log, at);
  }

  /** What the operations' own laws need of the invariant. */
  lemma RunOnSchedule(d: Deps, states: seq<State>, steps: seq<Step>, i: nat)
    requires IsExecution(d, states, steps) && i < |states|
    ensures Present(d, states[i].phase) && states[i].now <= states[i].deadline
    ensures PhasesStarted(states[i].log) == LockedOrder(d, states[i].phase)
    ensures Rank(states[i].phase) < 1 ==> states[i].sinkStop == NotStarted
    ensures Rank(states[i].phase) < 4 ==> states[i].prisma == NotStarted
  {
    RunKeepsInv(d, states, steps, i);
  }

  /** What a step does to the operations. */
  predicate OperationsMove(d: Deps, s: State, step: Step, s': State)
    requires Enabled(s, step)
  {
    && s'.phase == (if step.PhaseEnds? then NextPhase(d, s.phase) else s.phase)
    && s'.closesHandled == (s.closesHandled || step.AllClosesSettled?)
    && s'.sinkStop == (if step.SinkSettles? then if step.ok then Fulfilled else Rejected
                       else if step.PhaseEnds? && s'.phase == StoppingSink then InFlight else s.sinkStop)
    && s'.closes == (if step.CloseSettles? then s.closes[step.w := Fulfilled]
                     else if step.PhaseEnds? && s'.phase == ClosingWorkers then Copies(d.workers, InFlight) else s.closes)
    && s'.quits == (if step.QuitSettles? then s.quits[step.c := Fulfilled]
                    else if step.AllClosesSettled? && !s.workerPhaseTimedOut then Copies(|s.quits|, InFlight) else s.quits)
    && s'.prisma == (if step.PrismaSettles? then Fulfilled
                     else if step.PhaseEnds? && s'.phase == DisconnectingPrisma then InFlight else s.prisma)
  }

  lemma StepMovesOperations(d: Deps, s: State, step: Step, s': State)
    requires Enabled(s, step) && s' == Next(d, s, step)
    ensures OperationsMove(d, s, step, s')
  {
  }

  /** Every worker's close starts with the worker phase, and none before it. */
  predicate ClosesStarted(d: Deps, s: State) {
    |s.closes| == d.workers && forall w | 0 <= w < d.workers :: s.closes[w] == NotStarted <==> Rank(s.phase) < 2
  }

  lemma ClosesStartedStep(d: Deps, s: State, step: Step, s': State)
    requires ClosesStarted(d, s) && Present(d, s.phase) && Enabled(s, step) && OperationsMove(d, s, step, s')
    ensures ClosesStarted(d, s')
  {
  }

  lemma BeginClosesNothing(d: Deps, now: nat)
    ensures ClosesStarted(d, Begin(d, now))
  {
  }

  lemma {:induction false} RunStartsCloses(d: Deps, states: seq<State>, steps: seq<Step>, i: nat)
    requires IsExecution(d, states, steps) && i < |states|
    ensures ClosesStarted(d, states[i])
  {
    if i > 0 {
      RunStartsCloses(d, states, steps, i - 1);
      RunOnSchedule(d, states, steps, i - 1);
      assert StepAt(d, states, steps, i - 1);
      StepMovesOperations(d, states[i - 1], steps[i - 1], states[i]);
      ClosesStartedStep(d, states[i - 1], steps[i - 1], states[i]);
    } else {
      BeginClosesNothing(d, states[0].now);
    }
  }

  /** In every state each worker's close has been started if and only if the worker phase has. */
  lemma ClosesStartWithTheirPhase(d: Deps, states: seq<State>, steps: seq<Step>, i: nat, w: nat)
    requires IsExecution(d, states, steps) && i < |states| && w < d.workers
    ensures w < |states[i].closes|
    ensures states[i].closes[w] != NotStarted <==> ClosingWorkers in PhasesStarted(states[i].log)
  {
    RunStartsCloses(d, states, steps, i);
    RunOnSchedule(d, states, steps, i);
    WorkersAreInLockedOrder(d, states[i].phase);
  }

  lemma WorkersAreInLockedOrder(d: Deps, p: Phase)
    requires Present(d, p)
    ensures ClosingWorkers in LockedOrder(d, p) <==> Rank(p) >= 2
  {
  }

  /** A quit is under way or settled exactly if the log says that it started, and there is one for each connection. */
  ghost predicate QuitsLogged(d: Deps, s: State) {
    && |s.quits| == d.connections
    && forall c: nat :: QuitStarted(c) in s.log <==> c < d.connections && s.quits[c] != NotStarted
  }

  lemma QuitsLoggedStep(d: Deps, s: State, step: Step, s': State)
    requires QuitsLogged(d, s) && Enabled(s, step) && s' == Next(d, s, step)
    ensures QuitsLogged(d, s')
    ensures forall c: nat | c < d.connections ::
      s'.quits[c] != NotStarted <==> s.quits[c] != NotStarted || (step.AllClosesSettled? && !s.workerPhaseTimedOut)
  {
    forall c: nat ensures QuitStarted(c) in s'.log <==> QuitStarted(c) in s.log || (step.AllClosesSettled? && !s.workerPhaseTimedOut && c < d.connections) {
      QuitLogStep(d, s, step, s', c);
    }
  }

  lemma QuitLogStep(d: Deps, s: State, step: Step, s': State, c: nat)
    requires |s.quits| == d.connections && Enabled(s, step) && s' == Next(d, s, step)
    ensures QuitStarted(c) in s'.log <==> QuitStarted(c) in s.log || (step.AllClosesSettled? && !s.workerPhaseTimedOut && c < d.connections)
  {
    if step.AllClosesSettled? || step.PhaseEnds? {
      InBatches(d.connections, QuitStarted(c));
    } else {
      assert s'.log == s.log || (|s'.log| == |s.log| + 1 && s'.log[..|s.log|] == s.log && !s'.log[|s.log|].QuitStarted?);
    }
  }

  /** The handler of the settled closes ran before step `i`, in a phase that had not timed out. */
  ghost predicate ClosesSettledInTime(states: seq<State>, steps: seq<Step>, i: nat)
    requires |states| == |steps| + 1 && i < |states|
  {
    exists j | 0 <= j < i :: steps[j] == AllClosesSettled && !states[j].workerPhaseTimedOut
  }

  /** Every owned connection is quit, and no other, if and only if every close settled before the phase timed out. */
  lemma {:induction false} QuitsStartExactly(d: Deps, states: seq<State>, steps: seq<Step>, i: nat, c: nat)
    requires IsExecution(d, states, steps) && i < |states|
    ensures QuitStarted(c) in states[i].log <==> c < d.connections && ClosesSettledInTime(states, steps, i)
    ensures QuitsLogged(d, states[i])
  {
    if i > 0 {
      QuitsStartExactly(d, states, steps, i - 1, c);
      assert StepAt(d, states, steps, i - 1);
      QuitsLoggedStep(d, states[i - 1], steps[i - 1], states[i]);
    }
  }

  /** `step` was taken before step `i`. */
  ghost predicate Happened(steps: seq<Step>, i: nat, step: Step)
    requires i <= |steps|
  {
    exists j | 0 <= j < i :: steps[j] == step
  }

  lemma HappenedNext(steps: seq<Step>, i: nat, step: Step)
    requires i < |steps|
    ensures Happened(steps, i + 1, step) <==> Happened(steps, i, step) || steps[i] == step
  {
  }

  /** The quits wait for the handler of the closes. */
  predicate QuitsWait(s: State) {
    !s.closesHandled ==> forall c | 0 <= c < |s.quits| :: s.quits[c] == NotStarted
  }

  lemma SettleStep(d: Deps, s: State, step: Step, s': State)
    requires ClosesStarted(d, s) && Present(d, s.phase) && QuitsWait(s) && |s.quits| == d.connections
    requires Enabled(s, step) && OperationsMove(d, s, step, s')
    ensures QuitsWait(s') && |s'.quits| == d.connections && |s'.closes| == d.workers
    ensures forall w | 0 <= w < d.workers :: s'.closes[w] == Fulfilled <==> s.closes[w] == Fulfilled || step == CloseSettles(w)
    ensures forall c | 0 <= c < d.connections :: s'.quits[c] == Fulfilled <==> s.quits[c] == Fulfilled || step == QuitSettles(c)
  {
  }

  lemma RaceStep(d: Deps, s: State, step: Step, s': State)
    requires (Rank(s.phase) < 1 ==> s.sinkStop == NotStarted) && (Rank(s.phase) < 4 ==> s.prisma == NotStarted)
    requires Enabled(s, step) && OperationsMove(d, s, step, s')
    ensures s'.sinkStop == Fulfilled <==> s.sinkStop == Fulfilled || step == SinkSettles(true)
    ensures s'.sinkStop == Rejected <==> s.sinkStop == Rejected || step == SinkSettles(false)
    ensures s'.prisma == Fulfilled <==> s.prisma == Fulfilled || step == PrismaSettles
  {
  }

  lemma {:induction false} RunSettles(d: Deps, states: seq<State>, steps: seq<Step>, i: nat)
    requires IsExecution(d, states, steps) && i < |states|
    ensures QuitsWait(states[i]) && |states[i].quits| == d.connections && |states[i].closes| == d.workers
    ensures forall w | 0 <= w < d.workers :: states[i].closes[w] == Fulfilled <==> Happened(steps, i, CloseSettles(w))
    ensures forall c | 0 <= c < d.connections :: states[i].quits[c] == Fulfilled <==> Happened(steps, i, QuitSettles(c))
  {
    RunStartsCloses(d, states, steps, i);
    if i > 0 {
      RunSettles(d, states, steps, i - 1);
      RunStartsCloses(d, states, steps, i - 1);
      RunOnSchedule(d, states, steps, i - 1);
      assert StepAt(d, states, steps, i - 1);
      StepMovesOperations(d, states[i - 1], steps[i - 1], states[i]);
      SettleStep(d, states[i - 1], steps[i - 1], states[i]);
    }
  }

  lemma {:induction false} RunSettlesRaces(d: Deps, states: seq<State>, steps: seq<Step>, i: nat)
    requires IsExecution(d, states, steps) && i < |states|
    ensures states[i].sinkStop == Fulfilled <==> Happened(steps, i, SinkSettles(true))
    ensures states[i].sinkStop == Rejected <==> Happened(steps, i, SinkSettles(false))
    ensures states[i].prisma == Fulfilled <==> Happened(steps, i, PrismaSettles)
  {
    if i > 0 {
      RunSettlesRaces(d, states, steps, i - 1);
      RunOnSchedule(d, states, steps, i - 1);
      assert StepAt(d, states, steps, i - 1);
      StepMovesOperations(d, states[i - 1], steps[i - 1], states[i]);
      RaceStep(d, states[i - 1], steps[i - 1], states[i]);
      HappenedNext(steps, i - 1, SinkSettles(true));
      HappenedNext(steps, i - 1, SinkSettles(false));
      HappenedNext(steps, i - 1, PrismaSettles);
    }
  }

  /** An operation counts as settled if and only if it did settle: no settlement is lost, none is made up. */
  lemma SettledExactlyWhenTheySettle(d: Deps, states: seq<State>, steps: seq<Step>, i: nat)
    requires IsExecution(d, states, steps) && i < |states|
    ensures |states[i].quits| == d.connections && |states[i].closes| == d.workers
    ensures forall w | 0 <= w < d.workers :: states[i].closes[w] == Fulfilled <==> Happened(steps, i, CloseSettles(w))
    ensures forall c | 0 <= c < d.connections :: states[i].quits[c] == Fulfilled <==> Happened(steps, i, QuitSettles(c))
    ensures states[i].sinkStop == Fulfilled <==> Happened(steps, i, SinkSettles(true))
    ensures states[i].sinkStop == Rejected <==> Happened(steps, i, SinkSettles(false))
    ensures states[i].prisma == Fulfilled <==> Happened(steps, i, PrismaSettles)
  {
    RunSettles(d, states, steps, i);
    RunSettlesRaces(d, states, steps, i);
  }

  /** The bound of each phase, from the dependencies and the two constants. */
  predicate IsBoundOf(d: Deps, p: Phase, ms: nat) {
    && (p == StoppingScheduler ==> ms == d.stopDrainMs)
    && (p == StoppingSink ==> ms == 6_000)
    && (p == ClosingWorkers ==> ms == d.workerCloseTimeoutMs)
    && (p == ClosingQueues ==> ms == 5_000)
    && (p == DisconnectingPrisma ==> ms == d.prismaDisconnectTimeoutMs)
    && (p == Joining ==> ms == d.forceJoinTimeoutMs)
    && (p == Returned ==> ms == 0)
  }

  lemma DeadlineStep(d: Deps, s: State, step: Step, s': State)
    requires Present(d, s.phase) && Enabled(s, step) && s' == Next(d, s, step)
    ensures if step.PhaseEnds? then s'.phase != s.phase && IsBoundOf(d, s'.phase, s'.deadline - s'.now)
            else s'.phase == s.phase && s'.deadline == s.deadline
  {
  }

  lemma BeginDeadline(d: Deps, now: nat)
    ensures var s := Begin(d, now);
      s.now == now && now <= s.deadline && IsBoundOf(d, s.phase, s.deadline - now)
  {
  }

  /** The moment at which the current phase started. */
  lemma {:induction false} PhaseStart(d: Deps, states: seq<State>, steps: seq<Step>, i: nat) returns (j: nat)
    requires IsExecution(d, states, steps) && i < |states|
    ensures j <= i && states[j].phase == states[i].phase && (j == 0 || steps[j - 1].PhaseEnds?)
    ensures forall m | j <= m < i :: !steps[m].PhaseEnds?
    ensures states[j].now <= states[i].deadline && IsBoundOf(d, states[i].phase, states[i].deadline - states[j].now)
  {
    if i == 0 {
      j := 0;
      BeginDeadline(d, states[0].now);
    } else {
      RunOnSchedule(d, states, steps, i - 1);
      assert StepAt(d, states, steps, i - 1);
      DeadlineStep(d, states[i - 1], steps[i - 1], states[i]);
      if steps[i - 1].PhaseEnds? {
        j := i;
      } else {
        j := PhaseStart(d, states, steps, i - 1);
      }
    }
  }

  /** No phase outlasts its own bound, and a phase timer fires exactly when the bound is reached. */
  lemma EachPhaseKeepsItsBound(d: Deps, states: seq<State>, steps: seq<Step>, j: nat, i: nat, ms: nat)
    requires IsExecution(d, states, steps) && j <= i < |states| && (j == 0 || steps[j - 1].PhaseEnds?)
    requires (forall m | j <= m < i :: !steps[m].PhaseEnds?) && IsBoundOf(d, states[i].phase, ms)
    ensures states[j].phase == states[i].phase && states[i].now - states[j].now <= ms
    ensures i < |steps| && steps[i] == TimerFires ==> states[i].now - states[j].now == ms
  {
    RunOnSchedule(d, states, steps, i);
    var k := PhaseStart(d, states, steps, i);
    assert k == j;
    if i < |steps| {
      assert StepAt(d, states, steps, i);
    }
  }

  /** The whole shutdown takes at most the sum of its phase bounds. */
  lemma ElapsedIsBounded(d: Deps, states: seq<State>, steps: seq<Step>, i: nat)
    requires IsExecution(d, states, steps) && i < |states|
    ensures
      states[i].now - states[0].now <=
        (if d.hasScheduler then d.stopDrainMs + d.forceJoinTimeoutMs else 0)
        + (if d.hasAlertSink then 6_000 else 0)
        + d.workerCloseTimeoutMs + 5_000 + d.prismaDisconnectTimeoutMs
  {
    RunKeepsInv(d, states, steps, i);
    assert BoundsThrough(d, ClosingWorkers) ==
             (if d.hasScheduler then d.stopDrainMs else 0) + (if d.hasAlertSink then 6_000 else 0) + d.workerCloseTimeoutMs;
    assert BoundsThrough(d, DisconnectingPrisma) == BoundsThrough(d, ClosingWorkers) + 5_000 + d.prismaDisconnectTimeoutMs;
  }

  /** What is still ahead of the coordinator after phase `p`: time, the decision of each race, and the phases. */
  function Ahead(d: Deps, p: Phase): nat
    decreases 6 - Rank(p)
  {
    if p == Returned then 0 else Bound(d, NextPhase(d, p)) + 3 + Ahead(d, NextPhase(d, p))
  }

  function Remaining(d: Deps, s: State): int {
    s.deadline - s.now + (if s.race == Running then 1 else 0) + (if s.closesHandled then 0 else 1) + Ahead(d, s.phase)
  }

  predicate IsCoordinatorStep(step: Step) {
    step.Tick? || step.TimerFires? || step.PhaseEnds? || step.AllClosesSettled? || step.WorkersDone?
  }

  lemma SomeMoveIsEnabled(s: State)
    requires s.phase != Returned && s.now <= s.deadline
    ensures exists step :: IsCoordinatorStep(step) && Enabled(s, step)
  {
    var move :=
      if Raced(s.phase) && s.race != Running then PhaseEnds(None)
      else if ClosesDue(s) then AllClosesSettled
      else if WorkersDue(s) then WorkersDone
      else if !Raced(s.phase) then PhaseEnds(None)
      else if s.now < s.deadline then Tick
      else TimerFires;
    assert IsCoordinatorStep(move) && Enabled(s, move);
  }

  lemma BudgetShrinks(d: Deps, s: State, step: Step, s': State)
    requires Enabled(s, step) && s' == Next(d, s, step) && s.now <= s.deadline
    ensures Remaining(d, s') <= Remaining(d, s) - if IsCoordinatorStep(step) then 1 else 0
  {
  }

  /**
   * The coordinator never hangs: until it returns, the clock, its timer, a queued microtask or
   * its own code can always move, each such move uses up part of a finite budget, and nothing
   * ever refills it.
   */
  lemma CoordinatorAlwaysAdvances(d: Deps, states: seq<State>, steps: seq<Step>, i: nat)
    requires IsExecution(d, states, steps) && i < |states|
    ensures Remaining(d, states[i]) >= 0
    ensures states[i].phase != Returned ==>
              exists step :: IsCoordinatorStep(step) && Enabled(states[i], step)
    ensures i < |steps| ==>
              Remaining(d, states[i + 1]) <= Remaining(d, states[i]) - if IsCoordinatorStep(steps[i]) then 1 else 0
  {
    RunKeepsInv(d, states, steps, i);
    if states[i].phase != Returned {
      SomeMoveIsEnabled(states[i]);
    }
    if i < |steps| {
      assert StepAt(d, states, steps, i);
      BudgetShrinks(d, states[i], steps[i], states[i + 1]);
    }
  }

  /** The timer wins only at its deadline, against work that has not settled. */
  lemma TimerBeatsOnlyUnsettledWork(d: Deps, states: seq<State>, steps: seq<Step>, i: nat)
    requires IsExecution(d, states, steps) && i < |steps| && steps[i] == TimerFires
    ensures states[i].now == states[i].deadline
    ensures states[i].phase == StoppingSink ==> states[i].sinkStop == InFlight
    ensures states[i].phase == ClosingWorkers ==> if states[i].closesHandled then !AllSettled(states[i].quits) else !AllSettled(states[i].closes)
    ensures states[i].phase == DisconnectingPrisma ==> states[i].prisma == InFlight
  {
    RunKeepsInv(d, states, steps, i);
    assert StepAt(d, states, steps, i);
  }

  /** The sink outcome: its timer fired, or `stop()` fulfilled, or it rejected. */
  predicate SinkTruthful(d: Deps, s: State) {
    match s.alertSinkPhase
    case None => !d.hasAlertSink
    case Some(SinkTimeout) => d.hasAlertSink && TimerFired(StoppingSink) in s.log
    case Some(SinkOk) => d.hasAlertSink && TimerFired(StoppingSink) !in s.log && SinkSettled(true) in s.log
    case Some(SinkError) => d.hasAlertSink && TimerFired(StoppingSink) !in s.log && SinkSettled(false) in s.log
  }

  /** The worker outcome: everything closed and quit, or the timer fired and every socket was destroyed. */
  predicate WorkersTruthful(d: Deps, s: State) {
    match s.workerClosePhase
    case Some(PhaseOk) =>
      && (forall w | 0 <= w < d.workers :: CloseSettled(w) in s.log)
      && (forall c | 0 <= c < d.connections :: QuitSettled(c) in s.log)
      && TimerFired(ClosingWorkers) !in s.log && (forall e | e in s.log :: !e.ForceDisconnected?)
    case Some(PhaseTimeout) =>
      TimerFired(ClosingWorkers) in s.log && forall c | 0 <= c < d.connections :: ForceDisconnected(c) in s.log
    case None => false
  }

  predicate PrismaTruthful(s: State) {
    match s.prismaPhase
    case Some(PhaseOk) => PrismaSettled in s.log && TimerFired(DisconnectingPrisma) !in s.log
    case Some(PhaseTimeout) => TimerFired(DisconnectingPrisma) in s.log
    case None => false
  }

  predicate AnswersTruthful(d: Deps, s: State) {
    && (s.drained <==> !d.hasScheduler || StopReported(true) in s.log)
    && (s.joined <==> !d.hasScheduler || JoinReported(true) in s.log)
  }

  lemma FinalStateTruthful(d: Deps, s: State)
    requires PrismaHonest(s) && AnswersHonest(d, s) && s.phase == Returned
    ensures PrismaTruthful(s) && AnswersTruthful(d, s)
  {
  }

  /** The summary the coordinator returns says of every phase what really happened. */
  lemma SummaryIsTruthful(d: Deps, states: seq<State>, steps: seq<Step>, i: nat)
    requires IsExecution(d, states, steps) && i < |states| && states[i].phase == Returned
    ensures SinkTruthful(d, states[i]) && WorkersTruthful(d, states[i])
    ensures PrismaTruthful(states[i]) && AnswersTruthful(d, states[i])
  {
    RunKeepsInv(d, states, steps, i);
    FinalSinkTruthful(d, states[i]);
    FinalWorkersTruthful(d, states[i]);
    FinalStateTruthful(d, states[i]);
  }

  lemma FinalSinkTruthful(d: Deps, s: State)
    requires SinkHonest(d, s) && s.phase == Returned
    ensures SinkTruthful(d, s)
  {
  }

  lemma FinalWorkersTruthful(d: Deps, s: State)
    requires WorkersHonest(d, s) && DisconnectsHonest(d, s) && s.phase == Returned
    ensures WorkersTruthful(d, s)
  {
  }
}
