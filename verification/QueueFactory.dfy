/**
 * The module-level variables of src/api/queues/index.ts as the fields of an object, and the
 * code between two awaits as its methods. Each method is proved to take the step that
 * module QueueProducer reasons about.
 */
module QueueFactory {
  import opened Base
  import opened P = QueueProducer

  datatype EnqueueError = JobIdMissing | JobIdHasColon

  /** White space and line terminators, as ECMAScript's `trim` removes them. */
  predicate IsWhiteSpace(c: char) {
    || c in " \t\n\r\U{0B}\U{0C}\U{A0}\U{1680}\U{2028}\U{2029}\U{202F}\U{205F}\U{3000}\U{FEFF}"
    || '\U{2000}' <= c <= '\U{200A}'
  }

  /** `jobId.trim() === ''` */
  predicate IsBlank(text: string) {
    forall i | 0 <= i < |text| :: IsWhiteSpace(text[i])
  }

  class Factory {
    var producerCreation: Option<ConnId>
    var liveProducer: Option<ConnId>
    var pendingProducer: Option<ConnId>
    var producerEpoch: nat
    var queueCreations: map<string, QueueId>

    // What the environment knows of the creations and connections this module started.
    var creations: seq<Creation>
    var queues: seq<QueueCreation>
    var closers: seq<Closer>
    var listening: set<ConnId>
    var disconnected: set<ConnId>
    var quitCalled: set<ConnId>

    function Snapshot(): P.State
      reads this
    {
      P.State(producerCreation, liveProducer, pendingProducer, producerEpoch, queueCreations,
              creations, queues, closers, listening, disconnected, quitCalled)
    }

    /** What holds in every state of an execution: epochs, queues, connections and closing calls agree. */
    ghost predicate Valid()
      reads this
    {
      P.Inv(Snapshot())
    }

    constructor ()
      ensures Valid() && Snapshot() == P.INITIAL
    {
      producerCreation, liveProducer, pendingProducer := None, None, None;
      producerEpoch, queueCreations := 0, map[];
      creations, queues, closers := [], [], [];
      listening, disconnected, quitCalled := {}, {}, {};
    }

    method ForceDisconnect(c: ConnId)
      modifies this
      ensures Snapshot() == P.ForceDisconnect(old(Snapshot()), c)
    {
      listening := listening - {c};
      disconnected := disconnected + {c};
    }

    method InvalidateProducer(c: ConnId)
      requires Valid()
      modifies this
      ensures Valid()
      ensures Snapshot() == P.InvalidateProducer(old(Snapshot()), c)
    {
      P.InvalidateProducerKeepsInv(Snapshot(), c);
      if liveProducer != Some(c) {
        return;
      }
      producerEpoch := producerEpoch + 1;
      liveProducer := None;
      producerCreation := None;
      queueCreations := map[];
      ForceDisconnect(c);
    }

    method GetProducerConnection() returns (c: ConnId)
      requires Valid()
      modifies this
      ensures Valid()
      ensures (Snapshot(), c) == P.GetProducerConnection(old(Snapshot()))
    {
      P.GetProducerConnectionKeepsInv(Snapshot());
      if producerCreation.Some? {
        return producerCreation.value;
      }
      var epoch := producerEpoch;
      c := |creations|;
      creations := creations + [Creation(epoch, Connecting)];
      pendingProducer := Some(c);
      listening := listening + {c};
      producerCreation := Some(c);
    }

    method MakeQueue(name: string) returns (q: QueueId)
      requires Valid()
      modifies this
      ensures Valid()
      ensures (Snapshot(), q) == P.MakeQueue(old(Snapshot()), name)
    {
      P.MakeQueueKeepsInv(Snapshot(), name);
      if name in queueCreations {
        return queueCreations[name];
      }
      var c := GetProducerConnection();
      q := |queues|;
      queues := queues + [QueueCreation(name, c, Awaiting)];
      queueCreations := queueCreations[name := q];
    }

    /** The synchronous prefix of `enqueue`: the jobId guards, then the memoised queue. */
    method Enqueue(name: string, jobId: Option<string>) returns (r: Result<QueueId, EnqueueError>)
      requires Valid()
      modifies this
      ensures Valid()
      ensures r == Err(JobIdMissing) <==> jobId.None? || IsBlank(jobId.value)
      ensures r == Err(JobIdHasColon) <==> jobId.Some? && !IsBlank(jobId.value) && ':' in jobId.value
      ensures r.Err? ==> Snapshot() == old(Snapshot())
      ensures r.Ok? ==> (Snapshot(), r.value) == P.MakeQueue(old(Snapshot()), name)
    {
      if jobId.None? || IsBlank(jobId.value) {
        return Err(JobIdMissing);
      }
      if ':' in jobId.value {
        return Err(JobIdHasColon);
      }
      var q := MakeQueue(name);
      r := Ok(q);
    }

    /** `await conn.connect()` settled: the rest of the creation task. */
    method ResumeCreation(c: ConnId, ready: bool)
      requires Valid() && P.Enabled(Snapshot(), CreationResumes(c, ready))
      modifies this
      ensures Valid() && Snapshot() == P.Next(old(Snapshot()), CreationResumes(c, ready))
    {
      P.StepKeepsInv(Snapshot(), CreationResumes(c, ready));
      var superseded := creations[c].epoch != producerEpoch;
      if !ready || superseded {
        creations := creations[c := creations[c].(status := Failed)];
        ForceDisconnect(c);
        if pendingProducer == Some(c) {
          pendingProducer := None;
        }
        return;
      }
      if pendingProducer == Some(c) {
        pendingProducer := None;
      }
      liveProducer := Some(c);
      creations := creations[c := creations[c].(status := Fulfilled)];
    }

    method EvictCreation(c: ConnId)
      requires Valid() && P.Enabled(Snapshot(), CreationCaught(c))
      modifies this
      ensures Valid() && Snapshot() == P.Next(old(Snapshot()), CreationCaught(c))
    {
      P.StepKeepsInv(Snapshot(), CreationCaught(c));
      if producerCreation == Some(c) {
        producerCreation := None;
      }
    }

    method ResumeQueue(q: QueueId, constructed: bool)
      requires Valid() && P.Enabled(Snapshot(), QueueResumes(q, constructed))
      modifies this
      ensures Valid() && Snapshot() == P.Next(old(Snapshot()), QueueResumes(q, constructed))
    {
      P.StepKeepsInv(Snapshot(), QueueResumes(q, constructed));
      var status := if creations[queues[q].conn].status == Fulfilled && constructed then Built else Rejected;
      queues := queues[q := queues[q].(status := status)];
    }

    method EvictQueue(q: QueueId)
      requires Valid() && P.Enabled(Snapshot(), QueueCaught(q))
      modifies this
      ensures Valid() && Snapshot() == P.Next(old(Snapshot()), QueueCaught(q))
    {
      P.StepKeepsInv(Snapshot(), QueueCaught(q));
      var name := queues[q].name;
      if name in queueCreations && queueCreations[name] == q {
        queueCreations := queueCreations - {name};
      }
    }

    /** The `catch` of `enqueue`. */
    method AddFailed(q: QueueId, invalidating: bool)
      requires Valid() && P.Enabled(Snapshot(), AddRejected(q, invalidating))
      modifies this
      ensures Valid() && Snapshot() == P.Next(old(Snapshot()), AddRejected(q, invalidating))
    {
      P.StepKeepsInv(Snapshot(), AddRejected(q, invalidating));
      var failedConn := queues[q].conn;
      if liveProducer.Some? && failedConn == liveProducer.value && invalidating {
        InvalidateProducer(failedConn);
      }
    }

    method ConnectionEnded(c: ConnId)
      requires Valid() && P.Enabled(Snapshot(), EndEvent(c))
      modifies this
      ensures Valid() && Snapshot() == P.Next(old(Snapshot()), EndEvent(c))
    {
      P.StepKeepsInv(Snapshot(), EndEvent(c));
      if c in listening {
        InvalidateProducer(c);
      }
    }

    /** The synchronous prefix of `closeQueues`. */
    method BeginClose() returns (k: CloseId)
      requires Valid()
      modifies this
      ensures Valid() && Snapshot() == P.Next(old(Snapshot()), CallCloseQueues) && k == |old(closers)|
    {
      P.StepKeepsInv(Snapshot(), CallCloseQueues);
      producerEpoch := producerEpoch + 1;
      var captured := queueCreations.Values;
      queueCreations := map[];
      var conn := liveProducer;
      liveProducer := None;
      producerCreation := None;
      k := |closers|;
      closers := closers + [Closer(conn, captured, false, Pending)];
    }

    method ReachQuit(k: CloseId)
      requires Valid() && P.Enabled(Snapshot(), GracefulQuit(k))
      modifies this
      ensures Valid() && Snapshot() == P.Next(old(Snapshot()), GracefulQuit(k))
    {
      P.StepKeepsInv(Snapshot(), GracefulQuit(k));
      var conn := closers[k].conn;
      if conn.Some? {
        quitCalled := quitCalled + {conn.value};
      }
      closers := closers[k := closers[k].(quitReached := true)];
    }

    method FinishClose(k: CloseId)
      requires Valid() && P.Enabled(Snapshot(), GracefulDone(k))
      modifies this
      ensures Valid() && Snapshot() == P.Next(old(Snapshot()), GracefulDone(k))
    {
      P.StepKeepsInv(Snapshot(), GracefulDone(k));
      closers := closers[k := closers[k].(result := Graceful)];
    }

    method ExpireClose(k: CloseId)
      requires Valid() && P.Enabled(Snapshot(), BoundExpired(k))
      modifies this
      ensures Valid() && Snapshot() == P.Next(old(Snapshot()), BoundExpired(k))
    {
      P.StepKeepsInv(Snapshot(), BoundExpired(k));
      closers := closers[k := closers[k].(result := Expired)];
      var conn := closers[k].conn;
      if conn.Some? {
        ForceDisconnect(conn.value);
      }
      var stillPending := pendingProducer;
      if stillPending.Some? {
        pendingProducer := None;
        ForceDisconnect(stillPending.value);
      }
    }
  }
}
