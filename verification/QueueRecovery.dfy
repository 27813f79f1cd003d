/**
 * What the `catch` handlers of failed creations and rejected queue constructions achieve
 * (src/api/queues/index.ts:134-137 and 166-168): a failed connect is forgotten, whatever order
 * the handlers run in, and the next caller of the same name gets a new construction.
 */
module QueueRecovery {
  import opened Base
  import opened QueueProducer

  /** The handler of a construction takes that construction out of `queueCreations`, and nothing else. */
  lemma CaughtQueueIsForgotten(states: seq<State>, steps: seq<Step>, i: nat, q: QueueId)
    requires IsExecution(states, steps) && i < |steps| && steps[i] == QueueCaught(q)
    ensures forall name ::
      name in states[i + 1].queueCreations <==> name in states[i].queueCreations && states[i].queueCreations[name] != q
    ensures forall name | name in states[i + 1].queueCreations :: states[i + 1].queueCreations[name] == states[i].queueCreations[name]
    ensures states[i + 1].queues == states[i].queues && states[i + 1].producerCreation == states[i].producerCreation
  {
    RunKeepsInv(states, steps, i);
    assert StepAt(states, steps, i);
  }

  /** Entries of `queueCreations` are new constructions, or were there before. */
  lemma EntryStep(s: State, step: Step, t: State, name: string)
    requires Enabled(s, step) && t == Next(s, step) && name in t.queueCreations
    ensures
      || (name in s.queueCreations && t.queueCreations[name] == s.queueCreations[name])
      || (step == CallMakeQueue(name) && name !in s.queueCreations && t.queueCreations[name] == |s.queues| && |t.queues| == |s.queues| + 1)
  {
  }

  /** A construction whose handler has run is returned to no later caller. */
  lemma {:induction false} CaughtQueueStaysForgotten(states: seq<State>, steps: seq<Step>, i: nat, j: nat, q: QueueId, name: string)
    requires IsExecution(states, steps) && i < j < |states| && steps[i] == QueueCaught(q)
    ensures name in states[j].queueCreations ==> states[j].queueCreations[name] != q
    ensures q < |states[j].queues|
  {
    assert StepAt(states, steps, j - 1);
    if j == i + 1 {
      CaughtQueueIsForgotten(states, steps, i, q);
    } else {
      CaughtQueueStaysForgotten(states, steps, i, j - 1, q, name);
      QueuesOnlyGrow(states[j - 1], steps[j - 1], states[j]);
      if name in states[j].queueCreations {
        EntryStep(states[j - 1], steps[j - 1], states[j], name);
      }
    }
  }

  lemma QueuesOnlyGrow(s: State, step: Step, t: State)
    requires Enabled(s, step) && t == Next(s, step)
    ensures |s.queues| <= |t.queues|
  {
  }

  /** A caller is handed a rejected construction only until the handler of that construction has run. */
  lemma RejectedOnlyUntilCaught(states: seq<State>, steps: seq<Step>, j: nat, name: string)
    requires IsExecution(states, steps) && j < |steps| && steps[j] == CallMakeQueue(name)
    ensures name in states[j + 1].queueCreations && states[j + 1].queueCreations[name] < |states[j + 1].queues|
    ensures
      var q := states[j + 1].queueCreations[name];
      states[j + 1].queues[q].status == Rejected ==> forall i | 0 <= i < j :: steps[i] != QueueCaught(q)
  {
    RunKeepsInv(states, steps, j);
    assert StepAt(states, steps, j);
    var q := states[j + 1].queueCreations[name];
    if states[j + 1].queues[q].status == Rejected {
      assert name in states[j].queueCreations && states[j].queueCreations[name] == q;
      forall i: nat | i < j ensures steps[i] != QueueCaught(q) {
        if steps[i] == QueueCaught(q) {
          CaughtQueueStaysForgotten(states, steps, i, j, q, name);
        }
      }
    }
  }

  ghost predicate EverLive(states: seq<State>, i: nat, c: ConnId)
    requires i < |states|
  {
    exists j | 0 <= j <= i :: states[j].liveProducer == Some(c)
  }

  predicate IsFulfilled(s: State, c: ConnId) {
    c < |s.creations| && s.creations[c].status == Fulfilled
  }

  lemma FulfilStep(s: State, step: Step, t: State, c: ConnId)
    requires Enabled(s, step) && t == Next(s, step)
    ensures IsFulfilled(s, c) ==> IsFulfilled(t, c)
    ensures IsFulfilled(t, c) && !IsFulfilled(s, c) ==> t.liveProducer == Some(c)
  {
  }

  lemma LiveIsFulfilled(s: State, c: ConnId)
    requires Inv(s) && s.liveProducer == Some(c)
    ensures IsFulfilled(s, c)
  {
  }

  lemma {:induction false} FulfilledWasLive(states: seq<State>, steps: seq<Step>, i: nat, c: ConnId)
    requires IsExecution(states, steps) && i < |states|
    ensures EverLive(states, i, c) <==> IsFulfilled(states[i], c)
  {
    if states[i].liveProducer == Some(c) {
      RunKeepsInv(states, steps, i);
      LiveIsFulfilled(states[i], c);
    } else if i > 0 {
      FulfilledWasLive(states, steps, i - 1, c);
      assert StepAt(states, steps, i - 1);
      FulfilStep(states[i - 1], steps[i - 1], states[i], c);
    }
  }

  /**
   * A construction that resumes is settled for good: built if and only if `new Queue` succeeds on
   * a connection that has been live, else rejected; every other construction stays as it is.
   */
  lemma ConstructionSettlesExactly(states: seq<State>, steps: seq<Step>, i: nat, q: QueueId)
    requires IsExecution(states, steps) && i < |steps| && steps[i].QueueResumes? && steps[i].q == q
    ensures q < |states[i].queues| && |states[i + 1].queues| == |states[i].queues|
    ensures states[i].queues[q].status == Awaiting
    ensures
      states[i + 1].queues[q] == states[i].queues[q].(status :=
        if steps[i].constructed && EverLive(states, i, states[i].queues[q].conn) then Built else Rejected)
    ensures forall other | 0 <= other < |states[i].queues| && other != q :: states[i + 1].queues[other] == states[i].queues[other]
  {
    assert StepAt(states, steps, i);
    FulfilledWasLive(states, steps, i, states[i].queues[q].conn);
  }

  lemma MemoStep(s: State, step: Step, t: State, c: ConnId)
    requires Enabled(s, step) && t == Next(s, step)
    requires s.producerCreation != Some(c) && c < |s.creations|
    ensures t.producerCreation != Some(c) && c < |t.creations|
  {
  }

  /** A creation whose handler has run is the memoised one at no later moment. */
  lemma {:induction false} CaughtCreationStaysForgotten(states: seq<State>, steps: seq<Step>, i: nat, j: nat, c: ConnId)
    requires IsExecution(states, steps) && i < j < |states| && steps[i] == CreationCaught(c)
    ensures states[j].producerCreation != Some(c) && c < |states[j].creations|
  {
    assert StepAt(states, steps, j - 1);
    if j > i + 1 {
      CaughtCreationStaysForgotten(states, steps, i, j - 1, c);
      MemoStep(states[j - 1], steps[j - 1], states[j], c);
    }
  }

  /**
   * The entry of `name` is gone by step `b`, because it was not there or its handler ran then,
   * and no call for `name` has come since.
   */
  ghost predicate Dropped(states: seq<State>, steps: seq<Step>, b: nat, i: nat, name: string)
    requires |states| == |steps| + 1 && b < i < |states|
  {
    && (name in states[b].queueCreations ==> steps[b] == QueueCaught(states[b].queueCreations[name]))
    && forall m | b <= m < i :: steps[m] != CallMakeQueue(name)
  }

  lemma {:induction false} DroppedIsGone(states: seq<State>, steps: seq<Step>, b: nat, i: nat, name: string)
    requires IsExecution(states, steps) && b < i < |states| && Dropped(states, steps, b, i, name)
    ensures name !in states[i].queueCreations
  {
    assert StepAt(states, steps, i - 1);
    if i > b + 1 {
      DroppedIsGone(states, steps, b, i - 1, name);
    } else if name in states[b].queueCreations {
      CaughtQueueIsForgotten(states, steps, b, states[b].queueCreations[name]);
    }
    if name in states[i].queueCreations {
      EntryStep(states[i - 1], steps[i - 1], states[i], name);
    }
  }

  /**
   * Once the handler of a failed creation has run, and the handler of the construction that
   * waited for it under `name`, in either order, the next call for `name` starts a new
   * construction on another connection: the one memoised meanwhile, or a fresh one.
   */
  lemma RecoveryAfterFailedCreation(states: seq<State>, steps: seq<Step>, a: nat, b: nat, i: nat, c: ConnId, name: string)
    requires IsExecution(states, steps) && a < i < |steps| && b < i
    requires steps[a] == CreationCaught(c) && Dropped(states, steps, b, i, name)
    requires steps[i] == CallMakeQueue(name)
    ensures
      var (s, t, q) := (states[i], states[i + 1], |states[i].queues|);
      && name in t.queueCreations && t.queueCreations[name] == q
      && |t.queues| == q + 1 && t.queues[q].name == name && t.queues[q].status == Awaiting && t.queues[q].conn != c
      && (s.producerCreation.Some? ==> s.producerCreation == Some(t.queues[q].conn))
      && (s.producerCreation.None? ==> BuildsFreshProducer(s, name) && t.queues[q].conn == |s.creations|)
  {
    DroppedIsGone(states, steps, b, i, name);
    CaughtCreationStaysForgotten(states, steps, a, i, c);
    RunKeepsInv(states, steps, i);
    assert StepAt(states, steps, i);
  }

  /**
   * After a teardown the next caller of any name builds a fresh producer. So does, after the
   * eviction of the memoised failed creation, the next caller of any name that had no entry or
   * whose construction's handler had run.
   */
  lemma RecoveryBuildsFreshProducer(states: seq<State>, steps: seq<Step>, b: nat, i: nat, c: ConnId, name: string)
    requires IsExecution(states, steps) && b <= i < |steps|
    requires
      || (states[i].liveProducer == Some(c) && states[i + 1].liveProducer == None)
      || (states[i].producerCreation == Some(c) && steps[i] == CreationCaught(c) && Dropped(states, steps, b, i + 1, name))
    ensures c < |states[i + 1].creations| && BuildsFreshProducer(states[i + 1], name)
  {
    RunKeepsInv(states, steps, i);
    if states[i].liveProducer == Some(c) && states[i + 1].liveProducer == None {
      TeardownHasItsOwnCause(states, steps, i, c);
    } else {
      DroppedIsGone(states, steps, b, i + 1, name);
    }
    assert StepAt(states, steps, i);
  }
}
