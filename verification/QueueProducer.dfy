/**
 * The queue producer lifecycle (src/api/queues/index.ts) as a protocol of atomic steps.
 *
 * A step is the code that runs between two awaits. The state holds the five module-level
 * variables of the source, plus what the environment owns: the creations, Queue
 * constructions and closeQueues calls under way, and what has been done to each connection.
 * Every creation makes exactly one connection, so both carry the same number.
 *
 * Redis is an adversary: a connect may settle either way at any time, an 'end' event or a
 * failed add may arrive arbitrarily late, and a graceful close may outlive its bound.
 *
 * Scheduling: module Shutdown assumes that each event arrives in a callback of its own, whose
 * microtasks run before the next event. Those schedules are among the runs here, where a
 * continuation may run at any later moment.
 */
module QueueProducer {
  import opened Base

  type ConnId = nat
  type QueueId = nat
  type CloseId = nat

  datatype CreationStatus = Connecting | Fulfilled | Failed
  /** One run of the creation task; `epoch` is the value captured when it began. */
  datatype Creation = Creation(epoch: nat, status: CreationStatus)

  datatype QueueStatus = Awaiting | Built | Rejected
  /** One `makeQueue` construction, waiting on (or bound to) the connection `conn`. */
  datatype QueueCreation = QueueCreation(name: string, conn: ConnId, status: QueueStatus)

  datatype CloseResult = Pending | Graceful | Expired
  /** One `closeQueues` call: what it took over, how far its graceful task got, its result. */
  datatype Closer = Closer(conn: Option<ConnId>, queues: set<QueueId>, quitReached: bool, result: CloseResult)

  datatype State = State(
    producerCreation: Option<ConnId>,
    liveProducer: Option<ConnId>,
    pendingProducer: Option<ConnId>,
    producerEpoch: nat,
    queueCreations: map<string, QueueId>,
    creations: seq<Creation>,
    queues: seq<QueueCreation>,
    closers: seq<Closer>,
    listening: set<ConnId>,
    disconnected: set<ConnId>,
    quitCalled: set<ConnId>)

  const INITIAL := State(None, None, None, 0, map[], [], [], [], {}, {}, {})

  // ---------------------------------------------------------------------------
  // The atomic steps
  // ---------------------------------------------------------------------------

  /** `conn.removeAllListeners(); conn.disconnect()` */
  function ForceDisconnect(s: State, c: ConnId): State {
    s.(listening := s.listening - {c}, disconnected := s.disconnected + {c})
  }

  function InvalidateProducer(s: State, c: ConnId): State {
    if s.liveProducer != Some(c) then s
    else
      ForceDisconnect(
        s.(producerEpoch := s.producerEpoch + 1, liveProducer := None, producerCreation := None, queueCreations := map[]),
        c)
  }

  /** The memoised creation, or the synchronous prefix of a new one (up to `await conn.connect()`). */
  function GetProducerConnection(s: State): (State, ConnId) {
    match s.producerCreation
    case Some(c) => (s, c)
    case None =>
      var c := |s.creations|;
      (s.(creations := s.creations + [Creation(s.producerEpoch, Connecting)],
          pendingProducer := Some(c),
          producerCreation := Some(c),
          listening := s.listening + {c}), c)
  }

  function MakeQueue(s: State, name: string): (State, QueueId) {
    if name in s.queueCreations then (s, s.queueCreations[name])
    else
      var (s1, c) := GetProducerConnection(s);
      var q := |s1.queues|;
      (s1.(queues := s1.queues + [QueueCreation(name, c, Awaiting)],
           queueCreations := s1.queueCreations[name := q]), q)
  }

  /** The creation resumes after connect: `ready` is false on a rejection or a non-ready status. */
  function ResumeCreation(s: State, c: ConnId, ready: bool): State
    requires c < |s.creations|
  {
    var s1 := if s.pendingProducer == Some(c) then s.(pendingProducer := None) else s;
    if ready && s.creations[c].epoch == s.producerEpoch then
      s1.(creations := s.creations[c := s.creations[c].(status := Fulfilled)], liveProducer := Some(c))
    else
      ForceDisconnect(s1.(creations := s.creations[c := s.creations[c].(status := Failed)]), c)
  }

  /** The `creation.catch` handler. */
  function EvictCreation(s: State, c: ConnId): State {
    if s.producerCreation == Some(c) then s.(producerCreation := None) else s
  }

  /** `makeQueue`'s task resumes once its creation settled; `constructed` is false if `new Queue` throws. */
  function ResumeQueue(s: State, q: QueueId, constructed: bool): State
    requires q < |s.queues| && s.queues[q].conn < |s.creations|
  {
    var built := constructed && s.creations[s.queues[q].conn].status == Fulfilled;
    s.(queues := s.queues[q := s.queues[q].(status := if built then Built else Rejected)])
  }

  /** The `catch` handler of a queue construction. */
  function EvictQueue(s: State, q: QueueId): State
    requires q < |s.queues|
  {
    var name := s.queues[q].name;
    if name in s.queueCreations && s.queueCreations[name] == q
    then s.(queueCreations := s.queueCreations - {name})
    else s
  }

  /** The `catch` of `enqueue`: an add on queue `q` failed, possibly long after it was issued. */
  function AddFailed(s: State, q: QueueId, invalidating: bool): State
    requires q < |s.queues|
  {
    if s.liveProducer == Some(s.queues[q].conn) && invalidating
    then InvalidateProducer(s, s.queues[q].conn)
    else s
  }

  /** An 'end' event: only a connection whose listeners are still attached delivers it. */
  function ConnectionEnded(s: State, c: ConnId): State {
    if c in s.listening then InvalidateProducer(s, c) else s
  }

  /** The synchronous prefix of `closeQueues`. */
  function BeginClose(s: State): State {
    s.(producerEpoch := s.producerEpoch + 1,
       queueCreations := map[],
       liveProducer := None,
       producerCreation := None,
       closers := s.closers + [Closer(s.liveProducer, s.queueCreations.Values, false, Pending)])
  }

  /** The graceful task has seen every captured construction settle and calls `conn.quit()`. */
  function ReachQuit(s: State, k: CloseId): State
    requires k < |s.closers|
  {
    var s1 := s.(closers := s.closers[k := s.closers[k].(quitReached := true)]);
    match s.closers[k].conn
    case Some(c) => s1.(quitCalled := s.quitCalled + {c})
    case None => s1
  }

  function FinishClose(s: State, k: CloseId): State
    requires k < |s.closers|
  {
    s.(closers := s.closers[k := s.closers[k].(result := Graceful)])
  }

  /** The bound expired first: destroy the captured connection and any connect still in flight. */
  function ExpireClose(s: State, k: CloseId): State
    requires k < |s.closers|
  {
    var s1 := s.(closers := s.closers[k := s.closers[k].(result := Expired)]);
    var s2 := match s.closers[k].conn case Some(c) => ForceDisconnect(s1, c) case None => s1;
    match s2.pendingProducer
    case Some(c) => ForceDisconnect(s2.(pendingProducer := None), c)
    case None => s2
  }

  // ---------------------------------------------------------------------------
  // Runs
  // ---------------------------------------------------------------------------

  datatype Step =
    | CallMakeQueue(name: string)
    | CreationResumes(c: ConnId, ready: bool)
    | CreationCaught(c: ConnId)
    | QueueResumes(q: QueueId, constructed: bool)
    | QueueCaught(q: QueueId)
    | AddRejected(q: QueueId, invalidating: bool)
    | EndEvent(c: ConnId)
    | CallCloseQueues
    | GracefulQuit(k: CloseId)
    | GracefulDone(k: CloseId)
    | BoundExpired(k: CloseId)

  /** When a step may happen. Handlers may run arbitrarily late, and in any order. */
  predicate Enabled(s: State, step: Step) {
    match step
    case CallMakeQueue(_) => true
    case CreationResumes(c, _) => c < |s.creations| && s.creations[c].status == Connecting
    case CreationCaught(c) => c < |s.creations| && s.creations[c].status == Failed
    case QueueResumes(q, _) =>
      && q < |s.queues| && s.queues[q].status == Awaiting
      && s.queues[q].conn < |s.creations| && s.creations[s.queues[q].conn].status != Connecting
    case QueueCaught(q) => q < |s.queues| && s.queues[q].status == Rejected
    case AddRejected(q, _) => q < |s.queues| && s.queues[q].status == Built
    case EndEvent(c) => c < |s.creations|
    case CallCloseQueues => true
    case GracefulQuit(k) =>
      && k < |s.closers| && !s.closers[k].quitReached
      && forall q | q in s.closers[k].queues :: q < |s.queues| && s.queues[q].status != Awaiting
    case GracefulDone(k) => k < |s.closers| && s.closers[k].quitReached && s.closers[k].result == Pending
    case BoundExpired(k) => k < |s.closers| && s.closers[k].result == Pending
  }

  function Next(s: State, step: Step): State
    requires Enabled(s, step)
  {
    match step
    case CallMakeQueue(name) => MakeQueue(s, name).0
    case CreationResumes(c, ready) => ResumeCreation(s, c, ready)
    case CreationCaught(c) => EvictCreation(s, c)
    case QueueResumes(q, constructed) => ResumeQueue(s, q, constructed)
    case QueueCaught(q) => EvictQueue(s, q)
    case AddRejected(q, invalidating) => AddFailed(s, q, invalidating)
    case EndEvent(c) => ConnectionEnded(s, c)
    case CallCloseQueues => BeginClose(s)
    case GracefulQuit(k) => ReachQuit(s, k)
    case GracefulDone(k) => FinishClose(s, k)
    case BoundExpired(k) => ExpireClose(s, k)
  }

  /** `states[i]` becomes `states[i+1]` by `steps[i]`. */
  predicate StepAt(states: seq<State>, steps: seq<Step>, i: nat)
    requires |states| == |steps| + 1 && i < |steps|
  {
    Enabled(states[i], steps[i]) && states[i + 1] == Next(states[i], steps[i])
  }

  predicate IsRun(states: seq<State>, steps: seq<Step>) {
    |states| == |steps| + 1 && forall i | 0 <= i < |steps| :: StepAt(states, steps, i)
  }

  // ---------------------------------------------------------------------------
  // The inductive invariant
  // ---------------------------------------------------------------------------

  predicate InRange(s: State) {
    && (s.producerCreation.Some? ==> s.producerCreation.value < |s.creations|)
    && (s.liveProducer.Some? ==> s.liveProducer.value < |s.creations|)
    && (s.pendingProducer.Some? ==> s.pendingProducer.value < |s.creations|)
    && (forall c | c in s.listening :: c < |s.creations|)
    && (forall c | c in s.disconnected :: c < |s.creations|)
    && (forall name | name in s.queueCreations :: s.queueCreations[name] < |s.queues|)
    && (forall q | 0 <= q < |s.queues| :: s.queues[q].conn < |s.creations|)
    && (forall k | 0 <= k < |s.closers| && s.closers[k].conn.Some? :: s.closers[k].conn.value < |s.creations|)
  }

  /** Exactly the creation begun in the current epoch is the memoised one while it connects. */
  predicate EpochsAgree(s: State)
    requires InRange(s)
  {
    && (forall c | 0 <= c < |s.creations| :: s.creations[c].epoch <= s.producerEpoch)
    && (forall c | 0 <= c < |s.creations| && s.creations[c].status == Connecting ::
          s.creations[c].epoch == s.producerEpoch <==> s.producerCreation == Some(c))
    && (s.producerCreation.Some? && s.creations[s.producerCreation.value].status == Fulfilled ==>
          s.liveProducer == s.producerCreation)
    && (s.liveProducer.Some? ==>
          var creation := s.creations[s.liveProducer.value];
          s.producerCreation == s.liveProducer && creation.status == Fulfilled && creation.epoch == s.producerEpoch)
    && (s.pendingProducer.Some? ==> s.creations[s.pendingProducer.value].status == Connecting)
  }

  predicate QueuesRideTheirCreation(s: State)
    requires InRange(s)
  {
    && (forall q | 0 <= q < |s.queues| && s.queues[q].status == Built ::
          s.creations[s.queues[q].conn].status == Fulfilled)
    && (forall name | name in s.queueCreations :: s.queues[s.queueCreations[name]].name == name)
    && (forall name | name in s.queueCreations ::
          var c := s.queues[s.queueCreations[name]].conn;
          s.producerCreation == Some(c) || s.creations[c].status == Failed)
  }

  predicate Owned(s: State, c: ConnId) {
    exists k | 0 <= k < |s.closers| :: s.closers[k].conn == Some(c)
  }

  /** What a closeQueues call has done so far to the connection it took over. */
  predicate CloserHonest(s: State, closer: Closer)
    requires closer.conn.Some? ==> closer.conn.value < |s.creations|
  {
    && (closer.result == Graceful ==> closer.quitReached)
    && (closer.conn.Some? ==>
          var c := closer.conn.value;
          && s.creations[c].status == Fulfilled && s.liveProducer != Some(c)
          && (closer.quitReached ==> c in s.quitCalled)
          && (closer.result == Expired ==> c in s.disconnected))
  }

  predicate ConnectionsAccounted(s: State)
    requires InRange(s)
  {
    && s.listening !! s.disconnected
    && (forall c | 0 <= c < |s.creations| && s.creations[c].status == Failed :: c in s.disconnected)
    && (forall c | 0 <= c < |s.creations| && s.creations[c].status == Fulfilled ::
          s.liveProducer == Some(c) || c in s.disconnected || Owned(s, c))
    && (forall k | 0 <= k < |s.closers| :: CloserHonest(s, s.closers[k]))
  }

  predicate Inv(s: State) {
    InRange(s) && EpochsAgree(s) && QueuesRideTheirCreation(s) && ConnectionsAccounted(s)
  }

  lemma OwnedStays(s: State, t: State)
    requires |s.closers| <= |t.closers|
    requires forall k | 0 <= k < |s.closers| :: t.closers[k].conn == s.closers[k].conn
    ensures forall c: ConnId | Owned(s, c) :: Owned(t, c)
  {
    forall c: ConnId | Owned(s, c) ensures Owned(t, c) {
      var k :| 0 <= k < |s.closers| && s.closers[k].conn == Some(c);
      assert t.closers[k].conn == Some(c);
    }
  }

  lemma ForceDisconnectKeepsInv(s: State, c: ConnId)
    requires Inv(s) && c < |s.creations|
    ensures Inv(ForceDisconnect(s, c))
  {
    OwnedStays(s, ForceDisconnect(s, c));
  }

  lemma InvalidateProducerKeepsInv(s: State, c: ConnId)
    requires Inv(s)
    ensures Inv(InvalidateProducer(s, c))
  {
    OwnedStays(s, InvalidateProducer(s, c));
  }

  lemma GetProducerConnectionKeepsInv(s: State)
    requires Inv(s)
    ensures Inv(GetProducerConnection(s).0)
  {
    OwnedStays(s, GetProducerConnection(s).0);
  }

  lemma MakeQueueKeepsInv(s: State, name: string)
    requires Inv(s)
    ensures Inv(MakeQueue(s, name).0)
  {
    GetProducerConnectionKeepsInv(s);
    if name !in s.queueCreations {
      AddQueueKeepsInv(GetProducerConnection(s).0, name, GetProducerConnection(s).1);
    }
  }

  lemma AddQueueKeepsInv(s: State, name: string, c: ConnId)
    requires Inv(s) && s.producerCreation == Some(c)
    ensures Inv(s.(queues := s.queues + [QueueCreation(name, c, Awaiting)], queueCreations := s.queueCreations[name := |s.queues|]))
  {
    OwnedStays(s, s.(queues := s.queues + [QueueCreation(name, c, Awaiting)], queueCreations := s.queueCreations[name := |s.queues|]));
  }

  lemma FulfilKeepsInv(s: State, c: ConnId)
    requires Inv(s) && Enabled(s, CreationResumes(c, true)) && s.creations[c].epoch == s.producerEpoch
    ensures Inv(ResumeCreation(s, c, true))
  {
    OwnedStays(s, ResumeCreation(s, c, true));
  }

  lemma GiveUpKeepsInv(s: State, c: ConnId, ready: bool)
    requires Inv(s) && Enabled(s, CreationResumes(c, ready)) && !(ready && s.creations[c].epoch == s.producerEpoch)
    ensures Inv(ResumeCreation(s, c, ready))
  {
    ForceDisconnectKeepsInv(s, c);
    var s1 := ForceDisconnect(s, c);
    ClearPendingKeepsInv(s1);
    FailDestroyedKeepsInv(if s.pendingProducer == Some(c) then s1.(pendingProducer := None) else s1, c);
  }

  lemma FailDestroyedKeepsInv(s: State, c: ConnId)
    requires Inv(s) && c < |s.creations| && s.creations[c].status == Connecting
    requires c in s.disconnected && s.pendingProducer != Some(c)
    ensures Inv(s.(creations := s.creations[c := s.creations[c].(status := Failed)]))
  {
    OwnedStays(s, s.(creations := s.creations[c := s.creations[c].(status := Failed)]));
  }

  lemma ResumeCreationKeepsInv(s: State, c: ConnId, ready: bool)
    requires Inv(s) && Enabled(s, CreationResumes(c, ready))
    ensures Inv(ResumeCreation(s, c, ready))
  {
    if ready && s.creations[c].epoch == s.producerEpoch {
      FulfilKeepsInv(s, c);
    } else {
      GiveUpKeepsInv(s, c, ready);
    }
  }

  lemma ResumeQueueKeepsInv(s: State, q: QueueId, constructed: bool)
    requires Inv(s) && Enabled(s, QueueResumes(q, constructed))
    ensures Inv(ResumeQueue(s, q, constructed))
  {
    OwnedStays(s, ResumeQueue(s, q, constructed));
  }

  lemma EvictionKeepsInv(s: State, step: Step)
    requires Inv(s) && Enabled(s, step) && (step.CreationCaught? || step.QueueCaught?)
    ensures Inv(Next(s, step))
  {
    OwnedStays(s, Next(s, step));
  }

  lemma BeginCloseKeepsInv(s: State)
    requires Inv(s)
    ensures Inv(BeginClose(s))
  {
    var t := BeginClose(s);
    OwnedStays(s, t);
    assert t.closers[|s.closers|].conn == s.liveProducer;
    assert forall c: ConnId | s.liveProducer == Some(c) :: Owned(t, c);
  }

  /** A closer may advance as long as its new account is honest. */
  lemma UpdateCloserKeepsInv(s: State, k: CloseId, closer: Closer)
    requires Inv(s) && k < |s.closers|
    requires closer.conn == s.closers[k].conn && CloserHonest(s, closer)
    ensures Inv(s.(closers := s.closers[k := closer]))
  {
    OwnedStays(s, s.(closers := s.closers[k := closer]));
  }

  lemma CloseProgressKeepsInv(s: State, step: Step)
    requires Inv(s) && Enabled(s, step) && (step.GracefulQuit? || step.GracefulDone?)
    ensures Inv(Next(s, step))
  {
    if step.GracefulQuit? {
      var s1 := match s.closers[step.k].conn case Some(c) => s.(quitCalled := s.quitCalled + {c}) case None => s;
      OwnedStays(s, s1);
      UpdateCloserKeepsInv(s1, step.k, s.closers[step.k].(quitReached := true));
    } else {
      UpdateCloserKeepsInv(s, step.k, s.closers[step.k].(result := Graceful));
    }
  }

  lemma ClearPendingKeepsInv(s: State)
    requires Inv(s)
    ensures Inv(s.(pendingProducer := None))
  {
    OwnedStays(s, s.(pendingProducer := None));
  }

  lemma ExpireCloseKeepsInv(s: State, k: CloseId)
    requires Inv(s) && Enabled(s, BoundExpired(k))
    ensures Inv(ExpireClose(s, k))
  {
    var s1 := match s.closers[k].conn case Some(c) => ForceDisconnect(s, c) case None => s;
    if s.closers[k].conn.Some? {
      ForceDisconnectKeepsInv(s, s.closers[k].conn.value);
    }
    UpdateCloserKeepsInv(s1, k, s.closers[k].(result := Expired));
    var s2 := s1.(closers := s1.closers[k := s.closers[k].(result := Expired)]);
    if s2.pendingProducer.Some? {
      ClearPendingKeepsInv(s2);
      ForceDisconnectKeepsInv(s2.(pendingProducer := None), s2.pendingProducer.value);
    }
  }

  lemma StepKeepsInv(s: State, step: Step)
    requires Inv(s) && Enabled(s, step)
    ensures Inv(Next(s, step))
  {
    match step
    case CallMakeQueue(name) => MakeQueueKeepsInv(s, name);
    case CreationResumes(c, ready) => ResumeCreationKeepsInv(s, c, ready);
    case CreationCaught(_) => EvictionKeepsInv(s, step);
    case QueueResumes(q, constructed) => ResumeQueueKeepsInv(s, q, constructed);
    case QueueCaught(_) => EvictionKeepsInv(s, step);
    case AddRejected(q, _) => InvalidateProducerKeepsInv(s, s.queues[q].conn);
    case EndEvent(c) => InvalidateProducerKeepsInv(s, c);
    case CallCloseQueues => BeginCloseKeepsInv(s);
    case GracefulQuit(_) => CloseProgressKeepsInv(s, step);
    case GracefulDone(_) => CloseProgressKeepsInv(s, step);
    case BoundExpired(k) => ExpireCloseKeepsInv(s, k);
  }

  /** Every state of every run, under every interleaving, satisfies the invariant. */
  lemma {:induction false} RunKeepsInv(states: seq<State>, steps: seq<Step>, i: nat)
    requires IsRun(states, steps) && Inv(states[0]) && i < |states|
    ensures Inv(states[i])
  {
    if i > 0 {
      RunKeepsInv(states, steps, i - 1);
      assert StepAt(states, steps, i - 1);
      StepKeepsInv(states[i - 1], steps[i - 1]);
    }
  }

  predicate IsExecution(states: seq<State>, steps: seq<Step>) {
    IsRun(states, steps) && states[0] == INITIAL
  }

  // ---------------------------------------------------------------------------
  // What holds over whole executions
  // ---------------------------------------------------------------------------

  /** At most one connecting creation belongs to the current epoch, and it is the memoised one. */
  lemma OneCurrentCreation(states: seq<State>, steps: seq<Step>, i: nat, c: ConnId, d: ConnId)
    requires IsExecution(states, steps) && i < |states|
    requires c < |states[i].creations| && d < |states[i].creations|
    requires states[i].creations[c] == Creation(states[i].producerEpoch, Connecting)
    requires states[i].creations[d] == Creation(states[i].producerEpoch, Connecting)
    ensures c == d && states[i].producerCreation == Some(c) && states[i].liveProducer == None
  {
    RunKeepsInv(states, steps, i);
  }

  /** Epochs never run backwards and a creation keeps the epoch it captured. */
  lemma {:induction false} EpochsMonotone(states: seq<State>, steps: seq<Step>, i: nat, j: nat)
    requires IsRun(states, steps) && i <= j < |states|
    ensures states[i].producerEpoch <= states[j].producerEpoch
    ensures |states[i].creations| <= |states[j].creations|
    ensures forall c | 0 <= c < |states[i].creations| :: states[j].creations[c].epoch == states[i].creations[c].epoch
  {
    if i < j {
      EpochsMonotone(states, steps, i, j - 1);
      assert StepAt(states, steps, j - 1);
    }
  }

  /**
   * A creation begun before an effective invalidation or a closeQueues call never becomes,
   * or remains, the live producer: not at the teardown and not at any later moment.
   */
  lemma SupersededNeverLive(states: seq<State>, steps: seq<Step>, i: nat, j: nat, c: ConnId)
    requires IsExecution(states, steps) && i < j < |states|
    requires states[i].producerEpoch < states[i + 1].producerEpoch
    requires c < |states[i].creations|
    ensures states[j].liveProducer != Some(c)
  {
    RunKeepsInv(states, steps, i);
    RunKeepsInv(states, steps, j);
    EpochsMonotone(states, steps, i, j);
    EpochsMonotone(states, steps, i + 1, j);
  }

  /** Steps that tear nothing down. */
  lemma QuietStepKeepsEpoch(s: State, step: Step, t: State)
    requires Inv(s) && Enabled(s, step) && t == Next(s, step)
    requires !step.AddRejected? && !step.EndEvent? && !step.CallCloseQueues?
    ensures t.producerEpoch == s.producerEpoch && (s.liveProducer.Some? ==> t.liveProducer.Some?)
  {
  }

  lemma EpochStep(s: State, step: Step, t: State)
    requires Inv(s) && Enabled(s, step) && t == Next(s, step)
    ensures
      var teardown := step.CallCloseQueues? || (s.liveProducer.Some? && t.liveProducer.None?);
      t.producerEpoch == s.producerEpoch + if teardown then 1 else 0
  {
    if !step.AddRejected? && !step.EndEvent? && !step.CallCloseQueues? {
      QuietStepKeepsEpoch(s, step, t);
    }
  }

  /** The epoch moves, by one, exactly when a closeQueues call or the loss of a live producer happens. */
  lemma EpochCountsTeardowns(states: seq<State>, steps: seq<Step>, i: nat)
    requires IsExecution(states, steps) && i < |steps|
    ensures
      var teardown := steps[i].CallCloseQueues? || (states[i].liveProducer.Some? && states[i + 1].liveProducer.None?);
      states[i + 1].producerEpoch == states[i].producerEpoch + if teardown then 1 else 0
  {
    RunKeepsInv(states, steps, i);
    assert StepAt(states, steps, i);
    EpochStep(states[i], steps[i], states[i + 1]);
  }

  /** Every fulfilled entry of `queueCreations` rides the connection that is live at that moment. */
  lemma BuiltQueuesRideTheLiveProducer(states: seq<State>, steps: seq<Step>, i: nat, name: string)
    requires IsExecution(states, steps) && i < |states|
    requires name in states[i].queueCreations
    ensures states[i].queueCreations[name] < |states[i].queues|
    ensures
      var queue := states[i].queues[states[i].queueCreations[name]];
      && queue.name == name
      && (queue.status == Built ==> states[i].liveProducer == Some(queue.conn))
  {
    RunKeepsInv(states, steps, i);
  }

  predicate Rides(s: State, q: QueueId, c: ConnId) {
    q < |s.queues| && s.queues[q].conn == c
  }

  /** A connection listens from its creation until it is destroyed. */
  lemma {:induction false} ListensUntilDestroyed(states: seq<State>, steps: seq<Step>, i: nat, c: ConnId)
    requires IsExecution(states, steps) && i < |states| && c < |states[i].creations|
    ensures c in states[i].listening <==> c !in states[i].disconnected
  {
    RunKeepsInv(states, steps, i);
    if i > 0 {
      assert StepAt(states, steps, i - 1);
      if c < |states[i - 1].creations| {
        ListensUntilDestroyed(states, steps, i - 1, c);
      }
      ListeningStep(states[i - 1], steps[i - 1], states[i], c);
    }
  }

  lemma ListeningStep(s: State, step: Step, t: State, c: ConnId)
    requires Enabled(s, step) && t == Next(s, step) && c < |t.creations|
    requires c < |s.creations| ==> (c in s.listening || c in s.disconnected)
    ensures c in t.listening || c in t.disconnected
  {
  }

  /** What takes the live connection `c` away: its own 'end', its own invalidating failed add, or closeQueues. */
  predicate TearsDown(s: State, step: Step, c: ConnId) {
    || (step == EndEvent(c) && c !in s.disconnected)
    || step == CallCloseQueues
    || (step.AddRejected? && step.invalidating && Rides(s, step.q, c))
  }

  /**
   * The live producer goes away if and only if one of these happens, and the queues and the memo
   * go with it; a late error from any other connection changes nothing at all.
   */
  lemma TeardownHasItsOwnCause(states: seq<State>, steps: seq<Step>, i: nat, c: ConnId)
    requires IsExecution(states, steps) && i < |steps|
    ensures
      states[i].liveProducer == Some(c) ==>
        (states[i + 1].liveProducer != Some(c) <==> TearsDown(states[i], steps[i], c))
    ensures
      states[i].liveProducer == Some(c) && states[i + 1].liveProducer != Some(c) ==>
        && (steps[i] != CallCloseQueues ==> c in states[i + 1].disconnected)
        && states[i + 1].queueCreations == map[] && states[i + 1].producerCreation == None
    ensures
      (steps[i] == EndEvent(c) || (steps[i].AddRejected? && Rides(states[i], steps[i].q, c)))
      && states[i].liveProducer != Some(c) ==>
        states[i + 1] == states[i]
  {
    RunKeepsInv(states, steps, i);
    assert StepAt(states, steps, i);
    if states[i].liveProducer == Some(c) {
      ListensUntilDestroyed(states, steps, i, c);
      LiveIsTornDownExactly(states[i], steps[i], states[i + 1], c);
    }
  }

  lemma LiveIsTornDownExactly(s: State, step: Step, t: State, c: ConnId)
    requires Inv(s) && Enabled(s, step) && t == Next(s, step)
    requires s.liveProducer == Some(c) && (c in s.listening <==> c !in s.disconnected)
    ensures t.liveProducer != Some(c) <==> TearsDown(s, step, c)
    ensures t.liveProducer != Some(c) ==>
      (step != CallCloseQueues ==> c in t.disconnected) && t.queueCreations == map[] && t.producerCreation == None
  {
  }

  /** Every connection ever made is connecting, live, destroyed, or taken over by a closeQueues call. */
  lemma EveryConnectionAccountedFor(states: seq<State>, steps: seq<Step>, i: nat, c: ConnId)
    requires IsExecution(states, steps) && i < |states| && c < |states[i].creations|
    ensures
      || states[i].creations[c].status == Connecting
      || states[i].liveProducer == Some(c)
      || c in states[i].disconnected
      || exists k | 0 <= k < |states[i].closers| :: states[i].closers[k].conn == Some(c)
    ensures c in states[i].disconnected ==> c !in states[i].listening
  {
    RunKeepsInv(states, steps, i);
  }

  /** Once nothing connects, nothing is live and every closeQueues call returned, no handle is left open. */
  lemma QuiescenceLeavesNoHandle(states: seq<State>, steps: seq<Step>, i: nat, c: ConnId)
    requires IsExecution(states, steps) && i < |states| && c < |states[i].creations|
    requires forall d | 0 <= d < |states[i].creations| :: states[i].creations[d].status != Connecting
    requires states[i].liveProducer == None
    requires forall k | 0 <= k < |states[i].closers| :: states[i].closers[k].result != Pending
    ensures c in states[i].disconnected || c in states[i].quitCalled
  {
    RunKeepsInv(states, steps, i);
    var s := states[i];
    if c !in s.disconnected {
      var k :| 0 <= k < |s.closers| && s.closers[k].conn == Some(c);
      assert CloserHonest(s, s.closers[k]);
    }
  }

  /** Nothing is live, memoised or being created for a caller. */
  predicate Closed(s: State) {
    s.liveProducer == None && s.producerCreation == None && s.queueCreations == map[]
  }

  lemma ClosedStep(s: State, step: Step, t: State)
    requires Inv(s) && Enabled(s, step) && t == Next(s, step)
    requires step.CallCloseQueues? || (Closed(s) && !step.CallMakeQueue?)
    ensures Closed(t)
  {
  }

  /** With no enqueue after closeQueues began, nothing comes back to life, however late it settles. */
  lemma {:induction false} ClosedStaysClosed(states: seq<State>, steps: seq<Step>, i: nat, j: nat)
    requires IsExecution(states, steps) && i < j < |states|
    requires steps[i] == CallCloseQueues
    requires forall m | i < m < j :: !steps[m].CallMakeQueue?
    ensures Closed(states[j])
  {
    if j > i + 1 {
      ClosedStaysClosed(states, steps, i, j - 1);
    }
    RunKeepsInv(states, steps, j - 1);
    assert StepAt(states, steps, j - 1);
    ClosedStep(states[j - 1], steps[j - 1], states[j]);
  }

  /** The `catch` handlers that clear an entry: the others find a successor in its place, or nothing. */
  predicate Evicts(s: State, step: Step) {
    || (step.CreationCaught? && s.producerCreation == Some(step.c))
    || (step.QueueCaught? && step.q in s.queueCreations.Values)
  }

  /** Connections made, and the one that the next call for a new name may still make. */
  function Budget(s: State): nat {
    |s.creations| + if s.producerCreation.None? then 1 else 0
  }

  lemma CalmStep(s: State, step: Step, t: State)
    requires Enabled(s, step) && t == Next(s, step)
    requires t.producerEpoch == s.producerEpoch && !Evicts(s, step)
    ensures forall name | name in s.queueCreations :: name in t.queueCreations && t.queueCreations[name] == s.queueCreations[name]
    ensures Budget(t) <= Budget(s)
  {
    if step.QueueCaught? {
      assert forall name | name in s.queueCreations :: s.queueCreations[name] in s.queueCreations.Values;
    }
  }

  /** No teardown and no eviction from step `i` to before step `j`. */
  ghost predicate Calm(states: seq<State>, steps: seq<Step>, i: nat, j: nat)
    requires IsRun(states, steps) && i <= j < |states|
  {
    states[i].producerEpoch == states[j].producerEpoch && forall m | i <= m < j :: !Evicts(states[m], steps[m])
  }

  lemma {:induction false} CalmStretch(states: seq<State>, steps: seq<Step>, i: nat, j: nat)
    requires IsExecution(states, steps) && i <= j < |states| && Calm(states, steps, i, j)
    ensures forall name | name in states[i].queueCreations ::
      name in states[j].queueCreations && states[j].queueCreations[name] == states[i].queueCreations[name]
    ensures Budget(states[j]) <= Budget(states[i])
  {
    if i < j {
      EpochsMonotone(states, steps, i, j - 1);
      EpochsMonotone(states, steps, j - 1, j);
      CalmStretch(states, steps, i, j - 1);
      RunKeepsInv(states, steps, j - 1);
      assert StepAt(states, steps, j - 1);
      CalmStep(states[j - 1], steps[j - 1], states[j]);
    }
  }

  /**
   * Any two calls of a burst, whatever settles, fails or is called between them: until something
   * is torn down or evicted they share one construction per name and one connection between
   * names, and the whole burst makes at most one connection.
   */
  lemma BurstSharesOneProducer(states: seq<State>, steps: seq<Step>, i: nat, j: nat, a: string, b: string)
    requires IsExecution(states, steps) && i < j < |steps| && Calm(states, steps, i, j + 1)
    requires steps[i] == CallMakeQueue(a) && steps[j] == CallMakeQueue(b)
    ensures a in states[i + 1].queueCreations && b in states[j + 1].queueCreations
    ensures
      var (qa, qb) := (states[i + 1].queueCreations[a], states[j + 1].queueCreations[b]);
      var end := states[j + 1];
      && |end.creations| <= |states[i].creations| + 1
      && (a == b ==> qa == qb)
      && qa < |end.queues| && qb < |end.queues|
      && end.queues[qa].conn < |end.creations| && end.queues[qb].conn < |end.creations|
      && (end.creations[end.queues[qa].conn].status != Failed && end.creations[end.queues[qb].conn].status != Failed ==>
            end.queues[qa].conn == end.queues[qb].conn)
  {
    assert StepAt(states, steps, i) && StepAt(states, steps, j);
    EpochsMonotone(states, steps, i, i + 1);
    EpochsMonotone(states, steps, i + 1, j + 1);
    CalmStretch(states, steps, i, j + 1);
    CalmStretch(states, steps, i + 1, j + 1);
    RunKeepsInv(states, steps, j + 1);
  }

  predicate BuildsFreshProducer(s: State, name: string) {
    var (t, q) := MakeQueue(s, name);
    && q == |s.queues| && t.queues == s.queues + [QueueCreation(name, |s.creations|, Awaiting)]
    && t.creations == s.creations + [Creation(t.producerEpoch, Connecting)]
    && t.producerCreation == Some(|s.creations|) && t.queueCreations[name := q] == t.queueCreations
  }
}
