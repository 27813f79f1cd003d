/**
 * What the expired bound of a closeQueues call destroys, what it leaves connecting, and when a
 * connection that it destroyed can still become the live producer.
 *
 * A connect may settle `ready` although its connection has been disconnected: the source asks
 * for a producer that stays cancelled by structure, whatever the Redis client does after
 * `disconnect()` (src/api/queues/index.ts:72-75).
 */
module ForcedClose {
  import opened Base
  import opened QueueProducer

  /** What the expiry of a bound destroys: its captured connection and the pending one. */
  lemma ExpiryDestroys(s: State, k: CloseId, c: ConnId)
    requires Inv(s) && Enabled(s, BoundExpired(k))
    ensures
      c in ExpireClose(s, k).disconnected <==>
        c in s.disconnected || s.closers[k].conn == Some(c) || s.pendingProducer == Some(c)
    ensures s.closers[k].conn == Some(c) ==> s.creations[c].status == Fulfilled && s.liveProducer != Some(c)
    ensures ExpireClose(s, k).pendingProducer == None
    ensures ExpireClose(s, k).creations == s.creations && ExpireClose(s, k).liveProducer == s.liveProducer
  {
    assert CloserHonest(s, s.closers[k]);
  }

  lemma WhatAStepDestroys(s: State, step: Step, t: State, c: ConnId)
    requires Inv(s) && Enabled(s, step) && t == Next(s, step)
    requires step.CallMakeQueue? || step.CreationResumes? || step.EndEvent? || step.AddRejected?
    requires c < |t.creations| && (t.creations[c].status == Connecting || t.liveProducer == Some(c))
    ensures c < |s.creations| ==> s.creations[c].status == Connecting || s.liveProducer == Some(c)
    ensures c in t.disconnected <==> c in s.disconnected
  {
  }

  lemma DestructionStep(s: State, step: Step, t: State, c: ConnId)
    requires Inv(s) && Enabled(s, step) && t == Next(s, step)
    requires c < |t.creations| && (t.creations[c].status == Connecting || t.liveProducer == Some(c))
    ensures c < |s.creations| ==> s.creations[c].status == Connecting || s.liveProducer == Some(c)
    ensures c in t.disconnected <==> c in s.disconnected || (step.BoundExpired? && s.pendingProducer == Some(c))
  {
    if step.BoundExpired? {
      ExpiryDestroys(s, step.k, c);
    } else if step.CallMakeQueue? || step.CreationResumes? || step.EndEvent? || step.AddRejected? {
      WhatAStepDestroys(s, step, t, c);
    }
  }

  ghost predicate ForceClosedWhilePending(states: seq<State>, steps: seq<Step>, i: nat, c: ConnId)
    requires IsRun(states, steps) && i < |states|
  {
    exists j | 0 <= j < i :: steps[j].BoundExpired? && states[j].pendingProducer == Some(c)
  }

  lemma {:induction false} NotPendingBeforeItExists(states: seq<State>, steps: seq<Step>, i: nat, c: ConnId)
    requires IsExecution(states, steps) && i < |states| && c >= |states[i].creations|
    ensures forall j | 0 <= j <= i :: states[j].pendingProducer != Some(c)
  {
    RunKeepsInv(states, steps, i);
    if i > 0 {
      EpochsMonotone(states, steps, i - 1, i);
      NotPendingBeforeItExists(states, steps, i - 1, c);
    }
  }

  /**
   * A connecting or live connection has already been destroyed exactly when the bound of some
   * closeQueues call expired while its connect was the pending one.
   */
  lemma {:induction false} DestroyedWhilePending(states: seq<State>, steps: seq<Step>, i: nat, c: ConnId)
    requires IsExecution(states, steps) && i < |states| && c < |states[i].creations|
    requires states[i].creations[c].status == Connecting || states[i].liveProducer == Some(c)
    ensures c in states[i].disconnected <==> ForceClosedWhilePending(states, steps, i, c)
  {
    if i > 0 {
      RunKeepsInv(states, steps, i - 1);
      assert StepAt(states, steps, i - 1);
      DestructionStep(states[i - 1], steps[i - 1], states[i], c);
      if c < |states[i - 1].creations| {
        DestroyedWhilePending(states, steps, i - 1, c);
      } else {
        NotPendingBeforeItExists(states, steps, i - 1, c);
      }
    }
  }

  // ---------------------------------------------------------------------------
  // The return of a closeQueues call
  // ---------------------------------------------------------------------------

  ghost predicate Happened(steps: seq<Step>, i: nat, step: Step)
    requires i <= |steps|
  {
    exists j | 0 <= j < i :: steps[j] == step
  }

  lemma CloserSteps(s: State, step: Step, t: State, k: CloseId)
    requires Enabled(s, step) && t == Next(s, step)
    ensures |s.closers| <= |t.closers|
    ensures |s.closers| <= k < |t.closers| ==> t.closers[k].result == Pending && !t.closers[k].quitReached
    ensures k < |s.closers| ==>
      && t.closers[k].conn == s.closers[k].conn && t.closers[k].queues == s.closers[k].queues
      && (t.closers[k].quitReached <==> s.closers[k].quitReached || step == GracefulQuit(k))
      && (t.closers[k].result == Graceful <==> s.closers[k].result == Graceful || step == GracefulDone(k))
      && (t.closers[k].result == Expired <==> s.closers[k].result == Expired || step == BoundExpired(k))
    ensures step == GracefulQuit(k) || step == GracefulDone(k) || step == BoundExpired(k) ==> k < |s.closers|
  {
  }

  /**
   * A closeQueues call returns once: gracefully, and then only after its quit, or by its bound;
   * what happened to it stays so.
   */
  lemma {:induction false} CloseReturnsOnce(states: seq<State>, steps: seq<Step>, i: nat, k: CloseId)
    requires IsExecution(states, steps) && i < |states|
    ensures k < |states[i].closers| ==>
      && (states[i].closers[k].quitReached <==> Happened(steps, i, GracefulQuit(k)))
      && (states[i].closers[k].result == Graceful <==> Happened(steps, i, GracefulDone(k)))
      && (states[i].closers[k].result == Expired <==> Happened(steps, i, BoundExpired(k)))
      && (states[i].closers[k].result == Graceful ==> states[i].closers[k].quitReached)
    ensures k >= |states[i].closers| ==>
      !Happened(steps, i, GracefulQuit(k)) && !Happened(steps, i, GracefulDone(k)) && !Happened(steps, i, BoundExpired(k))
  {
    RunKeepsInv(states, steps, i);
    if i > 0 {
      CloseReturnsOnce(states, steps, i - 1, k);
      assert StepAt(states, steps, i - 1);
      CloserSteps(states[i - 1], steps[i - 1], states[i], k);
    }
  }

  // ---------------------------------------------------------------------------
  // A destroyed connection that becomes live
  // ---------------------------------------------------------------------------

  /** For a connect that may still settle ready after the disconnect, the epoch check alone is not enough. */
  lemma DestroyedConnectionCanBecomeLive() returns (states: seq<State>, steps: seq<Step>)
    ensures IsExecution(states, steps)
    ensures steps == [CallCloseQueues, CallMakeQueue("email"), BoundExpired(0), CreationResumes(0, true)]
    ensures 0 in states[3].disconnected && 0 in states[4].disconnected && states[4].liveProducer == Some(0)
  {
    steps := [CallCloseQueues, CallMakeQueue("email"), BoundExpired(0), CreationResumes(0, true)];
    var s1 := Next(INITIAL, steps[0]);
    var s2 := Next(s1, steps[1]);
    var s3 := Next(s2, steps[2]);
    states := [INITIAL, s1, s2, s3, Next(s3, steps[3])];
  }

  /** The connect of `c` settles ready although its connection has been destroyed. */
  predicate ReadyAfterDestruction(s: State, step: Step, c: ConnId) {
    step == CreationResumes(c, true) && c in s.disconnected
  }

  lemma LiveStep(s: State, step: Step, t: State, c: ConnId)
    requires Inv(s) && Enabled(s, step) && t == Next(s, step) && t.liveProducer == Some(c)
    ensures step == CreationResumes(c, true) <==> s.liveProducer != Some(c)
    ensures c in s.disconnected <==> c in t.disconnected
  {
    if step.BoundExpired? {
      ExpiryDestroys(s, step.k, c);
    }
  }

  /** A destroyed connection is live if and only if its connect settled ready after the destruction. */
  lemma {:induction false} DestroyedIsLiveExactly(states: seq<State>, steps: seq<Step>, i: nat, c: ConnId)
    requires IsExecution(states, steps) && i < |states| && states[i].liveProducer == Some(c)
    ensures c in states[i].disconnected <==> exists j | 0 <= j < i :: ReadyAfterDestruction(states[j], steps[j], c)
  {
    if i > 0 {
      var s, step := states[i - 1], steps[i - 1];
      RunKeepsInv(states, steps, i - 1);
      assert StepAt(states, steps, i - 1);
      LiveStep(s, step, states[i], c);
      if s.liveProducer == Some(c) {
        DestroyedIsLiveExactly(states, steps, i - 1, c);
      } else {
        NotResumedWhileConnecting(states, steps, i - 1, c);
      }
    }
  }

  lemma StaysConnecting(s: State, step: Step, t: State, c: ConnId)
    requires Inv(s) && Enabled(s, step) && t == Next(s, step)
    requires c < |t.creations| && t.creations[c].status == Connecting
    ensures step != CreationResumes(c, true)
    ensures c < |s.creations| ==> s.creations[c].status == Connecting
  {
  }

  lemma {:induction false} NotResumedWhileConnecting(states: seq<State>, steps: seq<Step>, i: nat, c: ConnId)
    requires IsExecution(states, steps) && i < |states|
    requires c >= |states[i].creations| || states[i].creations[c].status == Connecting
    ensures forall j | 0 <= j < i :: steps[j] != CreationResumes(c, true)
  {
    if i > 0 {
      RunKeepsInv(states, steps, i - 1);
      assert StepAt(states, steps, i - 1);
      EpochsMonotone(states, steps, i - 1, i);
      if c < |states[i].creations| {
        StaysConnecting(states[i - 1], steps[i - 1], states[i], c);
      }
      NotResumedWhileConnecting(states, steps, i - 1, c);
    }
  }

  /**
   * What the expiry of a bound leaves open to the connect it destroys: it can still become live
   * if and only if its creation is the memoised one: no teardown followed its beginning.
   */
  lemma ExpiredConnectCanBecomeLiveExactly(states: seq<State>, steps: seq<Step>, i: nat, c: ConnId)
    requires IsExecution(states, steps) && i < |steps|
    requires steps[i].BoundExpired? && states[i].pendingProducer == Some(c)
    ensures c in states[i + 1].disconnected && Enabled(states[i + 1], CreationResumes(c, true))
    ensures Next(states[i + 1], CreationResumes(c, true)).liveProducer == Some(c) <==> states[i].producerCreation == Some(c)
    ensures states[i].producerCreation != Some(c) ==> forall j | i < j < |states| :: states[j].liveProducer != Some(c)
  {
    RunKeepsInv(states, steps, i);
    assert StepAt(states, steps, i);
    ExpiryDestroys(states[i], steps[i].k, c);
    if states[i].producerCreation != Some(c) {
      forall j | i < j < |states| ensures states[j].liveProducer != Some(c) {
        EpochsMonotone(states, steps, i, j);
        RunKeepsInv(states, steps, j);
      }
    }
  }

  /** Step `b` is the closeQueues call whose bound expires in step `e`. */
  predicate OwnCall(states: seq<State>, steps: seq<Step>, b: nat, e: nat)
    requires |states| == |steps| + 1 && b < e < |steps|
  {
    steps[b] == CallCloseQueues && steps[e] == BoundExpired(|states[b].closers|)
  }

  lemma CloserStep(s: State, step: Step, t: State)
    requires Enabled(s, step) && t == Next(s, step)
    ensures |t.closers| == |s.closers| + if step.CallCloseQueues? then 1 else 0
  {
  }

  lemma {:induction false} CloserWasCalled(states: seq<State>, steps: seq<Step>, i: nat, k: CloseId) returns (b: nat)
    requires IsExecution(states, steps) && i < |states| && k < |states[i].closers|
    ensures b < i && steps[b] == CallCloseQueues && |states[b].closers| == k
  {
    assert i > 0;
    assert StepAt(states, steps, i - 1);
    CloserStep(states[i - 1], steps[i - 1], states[i]);
    if k < |states[i - 1].closers| {
      b := CloserWasCalled(states, steps, i - 1, k);
    } else {
      b := i - 1;
    }
  }

  /** No makeQueue call lies between a closeQueues call and the expiry of its bound. */
  ghost predicate NoCallWhileClosing(states: seq<State>, steps: seq<Step>)
    requires |states| == |steps| + 1
  {
    forall b: nat, e: nat, m: nat | b < m < e < |steps| && OwnCall(states, steps, b, e) :: !steps[m].CallMakeQueue?
  }

  /** The condition in a caller's hands: then no destroyed connection is ever live, whatever settles when. */
  lemma NoDestroyedProducerWithoutCallsWhileClosing(states: seq<State>, steps: seq<Step>, i: nat, c: ConnId)
    requires IsExecution(states, steps) && i < |states| && NoCallWhileClosing(states, steps)
    requires states[i].liveProducer == Some(c)
    ensures c !in states[i].disconnected
  {
    RunKeepsInv(states, steps, i);
    DestroyedWhilePending(states, steps, i, c);
    if ForceClosedWhilePending(states, steps, i, c) {
      var e: nat :| e < i && steps[e].BoundExpired? && states[e].pendingProducer == Some(c);
      assert StepAt(states, steps, e);
      var b := CloserWasCalled(states, steps, e, steps[e].k);
      assert OwnCall(states, steps, b, e);
      ClosedStaysClosed(states, steps, b, e);
      ExpiredConnectCanBecomeLiveExactly(states, steps, e, c);
    }
  }

  // ---------------------------------------------------------------------------
  // A connect that an expired bound leaves behind
  // ---------------------------------------------------------------------------

  /** Still connecting, and never disconnected. */
  predicate Loose(s: State, c: ConnId) {
    c < |s.creations| && s.creations[c].status == Connecting && c !in s.disconnected
  }

  /** The single slot for the pending connection is overwritten by the next creation. */
  lemma ExpiryCanLeaveAConnectBehind() returns (states: seq<State>, steps: seq<Step>)
    ensures IsExecution(states, steps)
    ensures steps == [CallMakeQueue("a"), CallCloseQueues, CallMakeQueue("b"), BoundExpired(0)]
    ensures Loose(states[4], 0) && states[4].pendingProducer == None
  {
    steps := [CallMakeQueue("a"), CallCloseQueues, CallMakeQueue("b"), BoundExpired(0)];
    var s1 := Next(INITIAL, steps[0]);
    var s2 := Next(s1, steps[1]);
    var s3 := Next(s2, steps[2]);
    states := [INITIAL, s1, s2, s3, Next(s3, steps[3])];
  }

  /** Of the loose connections exactly the newest creation is the pending one. */
  ghost predicate NewestIsPending(s: State) {
    forall c: ConnId | Loose(s, c) :: s.pendingProducer == Some(c) <==> c + 1 == |s.creations|
  }

  lemma NewestIsPendingStep(s: State, step: Step, t: State)
    requires Enabled(s, step) && t == Next(s, step) && NewestIsPending(s)
    ensures NewestIsPending(t)
  {
    forall c: ConnId | Loose(t, c) ensures t.pendingProducer == Some(c) <==> c + 1 == |t.creations| {
      if c < |s.creations| {
        assert Loose(s, c);
      }
    }
  }

  lemma {:induction false} PendingIsTheNewestLoose(states: seq<State>, steps: seq<Step>, i: nat)
    requires IsExecution(states, steps) && i < |states|
    ensures NewestIsPending(states[i])
  {
    if i > 0 {
      PendingIsTheNewestLoose(states, steps, i - 1);
      assert StepAt(states, steps, i - 1);
      NewestIsPendingStep(states[i - 1], steps[i - 1], states[i]);
    }
  }

  /** An expired bound leaves behind exactly the loose connections that are not the newest creation. */
  lemma ExpiryLeavesBehindExactly(states: seq<State>, steps: seq<Step>, i: nat, c: ConnId)
    requires IsExecution(states, steps) && i < |steps| && steps[i].BoundExpired?
    ensures Loose(states[i + 1], c) <==> Loose(states[i], c) && c + 1 != |states[i].creations|
  {
    RunKeepsInv(states, steps, i);
    PendingIsTheNewestLoose(states, steps, i);
    assert StepAt(states, steps, i);
    ExpiryDestroys(states[i], steps[i].k, c);
  }

  /** Construction `q` waits for the connect of `c`. */
  predicate WaitsOn(s: State, q: QueueId, c: ConnId) {
    q < |s.queues| && s.queues[q].conn == c && s.queues[q].status == Awaiting
  }

  /** A closeQueues call that cannot return gracefully before the connect of `c` settles. */
  ghost predicate HeldBy(s: State, closer: Closer, c: ConnId) {
    closer.result == Pending && !closer.quitReached && exists q | q in closer.queues :: WaitsOn(s, q, c)
  }

  ghost predicate Tracked(s: State, c: ConnId) {
    || (s.producerCreation == Some(c) && exists name | name in s.queueCreations :: WaitsOn(s, s.queueCreations[name], c))
    || exists k | 0 <= k < |s.closers| :: HeldBy(s, s.closers[k], c)
  }

  /** A loose connection is the newest, and is memoised for the callers or holds up a closeQueues call. */
  ghost predicate LooseIsTracked(s: State) {
    forall c: ConnId | Loose(s, c) :: c + 1 == |s.creations| && Tracked(s, c)
  }

  predicate NothingClosing(s: State) {
    forall k | 0 <= k < |s.closers| :: s.closers[k].result != Pending
  }

  lemma CallKeepsLooseTracked(s: State, name: string, t: State)
    requires LooseIsTracked(s) && NothingClosing(s) && t == MakeQueue(s, name).0
    ensures LooseIsTracked(t)
  {
    forall c: ConnId | Loose(t, c) ensures c + 1 == |t.creations| && Tracked(t, c) {
      if c < |s.creations| {
        assert Loose(s, c);
        var other :| other in s.queueCreations && WaitsOn(s, s.queueCreations[other], c);
        assert WaitsOn(t, t.queueCreations[other], c);
      } else {
        assert WaitsOn(t, |s.queues|, c) && t.queueCreations[name] == |s.queues|;
      }
    }
  }

  lemma WaitingStays(s: State, step: Step, t: State, q: QueueId, c: ConnId)
    requires Enabled(s, step) && t == Next(s, step)
    requires Loose(s, c) && WaitsOn(s, q, c)
    ensures WaitsOn(t, q, c)
  {
  }

  lemma HeldIsKept(s: State, step: Step, t: State, k: CloseId, c: ConnId)
    requires Enabled(s, step) && t == Next(s, step) && !step.BoundExpired?
    requires Loose(s, c) && k < |s.closers| && HeldBy(s, s.closers[k], c)
    ensures k < |t.closers| && HeldBy(t, t.closers[k], c)
  {
    var q :| q in s.closers[k].queues && WaitsOn(s, q, c);
    WaitingStays(s, step, t, q, c);
    assert t.closers[k] == s.closers[k];
  }

  lemma MemoisedIsKept(s: State, step: Step, t: State, name: string, c: ConnId)
    requires Inv(s) && Enabled(s, step) && t == Next(s, step) && !step.CallMakeQueue?
    requires Loose(s, c) && Loose(t, c)
    requires s.producerCreation == Some(c) && name in s.queueCreations && WaitsOn(s, s.queueCreations[name], c)
    ensures Tracked(t, c)
  {
    WaitingStays(s, step, t, s.queueCreations[name], c);
    if step.CallCloseQueues? {
      assert s.queueCreations[name] in t.closers[|s.closers|].queues;
      assert HeldBy(t, t.closers[|s.closers|], c);
    } else {
      assert t.producerCreation == Some(c) && name in t.queueCreations && t.queueCreations[name] == s.queueCreations[name];
    }
  }

  /** Nothing that a caller or a closing call waits for is let go while its connect is in flight. */
  lemma TrackedStays(s: State, step: Step, t: State, c: ConnId)
    requires Inv(s) && Enabled(s, step) && t == Next(s, step)
    requires !step.CallMakeQueue? && !step.BoundExpired?
    requires Loose(s, c) && Tracked(s, c) && Loose(t, c)
    ensures Tracked(t, c)
  {
    if k: nat :| k < |s.closers| && HeldBy(s, s.closers[k], c) {
      HeldIsKept(s, step, t, k, c);
    } else {
      var name :| name in s.queueCreations && WaitsOn(s, s.queueCreations[name], c);
      MemoisedIsKept(s, step, t, name, c);
    }
  }

  /** Every caller waits for the closeQueues calls under way before it calls makeQueue again. */
  ghost predicate CallsWaitForCloses(states: seq<State>, steps: seq<Step>)
    requires |states| == |steps| + 1
  {
    forall i | 0 <= i < |steps| && steps[i].CallMakeQueue? :: NothingClosing(states[i])
  }

  lemma {:induction false} AwaitedClosesKeepLooseTracked(states: seq<State>, steps: seq<Step>, i: nat)
    requires IsExecution(states, steps) && i < |states| && CallsWaitForCloses(states, steps)
    ensures LooseIsTracked(states[i])
  {
    if i > 0 {
      var s, step, t := states[i - 1], steps[i - 1], states[i];
      AwaitedClosesKeepLooseTracked(states, steps, i - 1);
      RunKeepsInv(states, steps, i - 1);
      assert StepAt(states, steps, i - 1);
      if step.CallMakeQueue? {
        CallKeepsLooseTracked(s, step.name, t);
      } else {
        forall c: ConnId | Loose(t, c) ensures c + 1 == |t.creations| && Tracked(t, c) {
          StaysLoose(s, step, t, c);
          if step.BoundExpired? {
            ExpiryLeavesBehindExactly(states, steps, i - 1, c);
          } else {
            TrackedStays(s, step, t, c);
          }
        }
      }
    }
  }

  lemma StaysLoose(s: State, step: Step, t: State, c: ConnId)
    requires Enabled(s, step) && t == Next(s, step) && !step.CallMakeQueue? && Loose(t, c)
    ensures Loose(s, c) && |t.creations| == |s.creations|
  {
  }

  /** The condition in a caller's hands: then no expired bound leaves a connect behind. */
  lemma AwaitedClosesLeaveNothingBehind(states: seq<State>, steps: seq<Step>, i: nat, c: ConnId)
    requires IsExecution(states, steps) && i < |steps| && CallsWaitForCloses(states, steps)
    requires steps[i].BoundExpired?
    ensures !Loose(states[i + 1], c)
  {
    AwaitedClosesKeepLooseTracked(states, steps, i);
    ExpiryLeavesBehindExactly(states, steps, i, c);
  }

  lemma {:induction false} PendingUntilItReturns(states: seq<State>, steps: seq<Step>, i: nat, j: nat, k: CloseId)
    requires IsRun(states, steps) && i <= j < |states| && k < |states[i].closers|
    ensures k < |states[j].closers| && (states[j].closers[k].result == Pending ==> states[i].closers[k].result == Pending)
  {
    if i < j {
      PendingUntilItReturns(states, steps, i, j - 1, k);
      assert StepAt(states, steps, j - 1);
    }
  }

  /** Callers who wait for the closing calls also meet the condition for destroyed connections. */
  lemma WaitingCallersMakeNoCallWhileClosing(states: seq<State>, steps: seq<Step>)
    requires IsExecution(states, steps) && CallsWaitForCloses(states, steps)
    ensures NoCallWhileClosing(states, steps)
  {
    forall b: nat, e: nat, m: nat | b < m < e < |steps| && OwnCall(states, steps, b, e) ensures !steps[m].CallMakeQueue? {
      var k := |states[b].closers|;
      assert StepAt(states, steps, b) && StepAt(states, steps, e);
      PendingUntilItReturns(states, steps, b + 1, m, k);
      PendingUntilItReturns(states, steps, m, e, k);
    }
  }
}
