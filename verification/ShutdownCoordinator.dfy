/**
 * `runWorkerShutdown` (src/workerShutdown.ts) with its local variables as fields and the code
 * between two awaits as methods. Each method is proved to take the step that module Shutdown
 * reasons about.
 */
module ShutdownCoordinator {
  import opened Base
  import opened S = Shutdown

  class Coordinator {
    const deps: S.Deps
    ghost const begun: nat

    // The awaited phase and the race inside its boundedPhase.
    var phase: S.Phase
    var now: nat
    var deadline: nat
    var race: S.Race

    // The local variables of the source.
    var drained: bool
    var sinkRejected: bool
    var alertSinkPhase: Option<S.SinkOutcome>
    var workerPhaseTimedOut: bool
    var workerClosePhase: Option<S.PhaseOutcome>
    var prismaPhase: Option<S.PhaseOutcome>
    var joined: bool

    // The operations under way, and what happened so far.
    var sinkStop: S.OpStatus
    var closes: seq<S.OpStatus>
    var closesHandled: bool
    var quits: seq<S.OpStatus>
    var prisma: S.OpStatus
    var log: seq<S.Event>

    function Snapshot(): S.State
      reads this
    {
      S.State(phase, now, deadline, race, drained, sinkRejected, alertSinkPhase, workerPhaseTimedOut,
              workerClosePhase, prismaPhase, joined, sinkStop, closes, closesHandled, quits, prisma, log)
    }

    /** What holds in every state of a shutdown: the order, the bounds, and an honest account of each phase. */
    ghost predicate Valid()
      reads this
    {
      S.Inv(deps, Snapshot(), begun)
    }

    constructor (deps: S.Deps, now: nat)
      ensures this.deps == deps && Snapshot() == S.Begin(deps, now) && Valid()
    {
      this.deps, begun := deps, now;
      this.now, deadline, race := now, now, Running;
      drained, sinkRejected, alertSinkPhase := true, false, None;
      workerPhaseTimedOut, workerClosePhase, prismaPhase, joined := false, None, None, true;
      sinkStop, prisma := NotStarted, NotStarted;
      closes, quits := S.Copies(deps.workers, NotStarted), S.Copies(deps.connections, NotStarted);
      closesHandled, log := false, [];
      phase := StoppingScheduler;
      new;
      if deps.hasScheduler {
        Await(StoppingScheduler);
      } else {
        BeginSinkPhase();
      }
      S.BeginKeepsInv(deps, now);
    }

    /** Wait for the operation of phase `p`, at most for its bound. */
    method Await(p: S.Phase)
      requires p != StoppingSink && p != ClosingWorkers && p != DisconnectingPrisma
      modifies this
      ensures Snapshot() == S.Enter(deps, old(Snapshot()), p)
    {
      phase, race, deadline, log := p, Running, now + S.Bound(deps, p), log + [S.Started(p)];
    }

    method AwaitSink()
      modifies this
      ensures Snapshot() == S.Enter(deps, old(Snapshot()), StoppingSink)
    {
      phase, race, deadline, log := StoppingSink, Running, now + S.Bound(deps, StoppingSink), log + [S.Started(StoppingSink)];
      sinkStop := InFlight;
    }

    method AwaitWorkers()
      modifies this
      ensures Snapshot() == S.Enter(deps, old(Snapshot()), ClosingWorkers)
    {
      phase, race, deadline, log := ClosingWorkers, Running, now + S.Bound(deps, ClosingWorkers), log + [S.Started(ClosingWorkers)];
      closes := StartAll(deps.workers);
    }

    method AwaitPrisma()
      modifies this
      ensures Snapshot() == S.Enter(deps, old(Snapshot()), DisconnectingPrisma)
    {
      phase, race, deadline, log := DisconnectingPrisma, Running, now + S.Bound(deps, DisconnectingPrisma), log + [S.Started(DisconnectingPrisma)];
      prisma := InFlight;
    }

    /** `map` over the operations: each one is started. */
    method StartAll(n: nat) returns (ops: seq<S.OpStatus>)
      ensures ops == S.Copies(n, InFlight)
    {
      ops := [];
      for i := 0 to n
        invariant ops == S.Copies(i, InFlight)
      {
        ops := ops + [InFlight];
      }
    }

    /** `if (deps.alertSink)`: the sink phase, or straight on to the workers. */
    method BeginSinkPhase()
      modifies this
      ensures Snapshot() == S.Enter(deps, old(Snapshot()), if deps.hasAlertSink then StoppingSink else ClosingWorkers)
    {
      if deps.hasAlertSink {
        AwaitSink();
      } else {
        AwaitWorkers();
      }
    }

    /** After `await deps.scheduler.stop()`; None is a rejection or a throw. */
    method AfterSchedulerStop(answer: Option<bool>)
      requires phase == StoppingScheduler
      requires Valid() && S.Enabled(Snapshot(), PhaseEnds(answer))
      modifies this
      ensures Valid() && Snapshot() == S.Next(deps, old(Snapshot()), PhaseEnds(answer))
    {
      drained := answer.Some? && answer.value;
      log := log + [StopReported(drained)];
      BeginSinkPhase();
      S.StepKeepsInv(deps, old(Snapshot()), PhaseEnds(answer), Snapshot(), begun);
    }

    /** `sink.stop()` settled, in time or late. */
    method SinkSettles(ok: bool)
      requires Valid() && S.Enabled(Snapshot(), S.SinkSettles(ok))
      modifies this
      ensures Valid() && Snapshot() == S.Next(deps, old(Snapshot()), S.SinkSettles(ok))
    {
      sinkRejected := !ok;
      sinkStop := if ok then Fulfilled else Rejected;
      log := log + [SinkSettled(ok)];
      if phase == StoppingSink && race == Running {
        race := WorkWon;
      }
      S.StepKeepsInv(deps, old(Snapshot()), S.SinkSettles(ok), Snapshot(), begun);
    }

    method AfterSinkRace()
      requires phase == StoppingSink
      requires Valid() && S.Enabled(Snapshot(), PhaseEnds(None))
      modifies this
      ensures Valid() && Snapshot() == S.Next(deps, old(Snapshot()), PhaseEnds(None))
    {
      alertSinkPhase := Some(if race == WorkWon && sinkRejected then SinkError else if race == WorkWon then SinkOk else SinkTimeout);
      AwaitWorkers();
      S.StepKeepsInv(deps, old(Snapshot()), PhaseEnds(None), Snapshot(), begun);
    }

    method CloseSettles(w: nat)
      requires Valid() && S.Enabled(Snapshot(), S.CloseSettles(w))
      modifies this
      ensures Valid() && Snapshot() == S.Next(deps, old(Snapshot()), S.CloseSettles(w))
    {
      closes := closes[w := Fulfilled];
      log := log + [CloseSettled(w)];
      S.StepKeepsInv(deps, old(Snapshot()), S.CloseSettles(w), Snapshot(), begun);
    }

    method StartQuits()
      modifies this
      ensures Snapshot() == old(Snapshot()).(quits := S.Copies(|old(quits)|, InFlight), log := old(log) + S.Quitting(|old(quits)|))
    {
      ghost var before := log;
      for i := 0 to |quits|
        modifies this`log
        invariant log == before + S.Quitting(i)
      {
        assert S.Quitting(i + 1) == S.Quitting(i) + [QuitStarted(i)];
        log := log + [QuitStarted(i)];
      }
      quits := StartAll(|quits|);
    }

    /** The `.then` chained after every close: a late settlement starts no quit. */
    method AfterCloses()
      requires Valid() && S.Enabled(Snapshot(), AllClosesSettled)
      modifies this
      ensures Valid() && Snapshot() == S.Next(deps, old(Snapshot()), AllClosesSettled)
    {
      closesHandled := true;
      if !workerPhaseTimedOut {
        StartQuits();
      }
      S.StepKeepsInv(deps, old(Snapshot()), AllClosesSettled, Snapshot(), begun);
    }

    method QuitSettles(c: nat)
      requires Valid() && S.Enabled(Snapshot(), S.QuitSettles(c))
      modifies this
      ensures Valid() && Snapshot() == S.Next(deps, old(Snapshot()), S.QuitSettles(c))
    {
      quits := quits[c := Fulfilled];
      log := log + [QuitSettled(c)];
      S.StepKeepsInv(deps, old(Snapshot()), S.QuitSettles(c), Snapshot(), begun);
    }

    method WorkersSettle()
      requires Valid() && S.Enabled(Snapshot(), WorkersDone)
      modifies this
      ensures Valid() && Snapshot() == S.Next(deps, old(Snapshot()), WorkersDone)
    {
      race := WorkWon;
      S.StepKeepsInv(deps, old(Snapshot()), WorkersDone, Snapshot(), begun);
    }

    method DisconnectAll()
      modifies this
      ensures Snapshot() == old(Snapshot()).(log := old(log) + S.Disconnecting(deps.connections))
    {
      ghost var before := log;
      for i := 0 to deps.connections
        modifies this`log
        invariant log == before + S.Disconnecting(i)
      {
        assert S.Disconnecting(i + 1) == S.Disconnecting(i) + [ForceDisconnected(i)];
        log := log + [ForceDisconnected(i)];
      }
    }

    /** After the worker race: on a timeout, gate the late quits and destroy every owned socket. */
    method AfterWorkerRace()
      requires phase == ClosingWorkers
      requires Valid() && S.Enabled(Snapshot(), PhaseEnds(None))
      modifies this
      ensures Valid() && Snapshot() == S.Next(deps, old(Snapshot()), PhaseEnds(None))
    {
      if race == TimerWon {
        workerClosePhase := Some(PhaseTimeout);
        workerPhaseTimedOut := true;
        DisconnectAll();
      } else {
        workerClosePhase := Some(PhaseOk);
      }
      Await(ClosingQueues);
      S.StepKeepsInv(deps, old(Snapshot()), PhaseEnds(None), Snapshot(), begun);
    }

    /** After `await deps.closeQueues()`, whose rejection is swallowed. */
    method AfterCloseQueues()
      requires phase == ClosingQueues
      requires Valid() && S.Enabled(Snapshot(), PhaseEnds(None))
      modifies this
      ensures Valid() && Snapshot() == S.Next(deps, old(Snapshot()), PhaseEnds(None))
    {
      AwaitPrisma();
      S.StepKeepsInv(deps, old(Snapshot()), PhaseEnds(None), Snapshot(), begun);
    }

    method PrismaSettles()
      requires Valid() && S.Enabled(Snapshot(), S.PrismaSettles)
      modifies this
      ensures Valid() && Snapshot() == S.Next(deps, old(Snapshot()), S.PrismaSettles)
    {
      prisma := Fulfilled;
      log := log + [PrismaSettled];
      if phase == DisconnectingPrisma && race == Running {
        race := WorkWon;
      }
      S.StepKeepsInv(deps, old(Snapshot()), S.PrismaSettles, Snapshot(), begun);
    }

    method AfterPrismaRace()
      requires phase == DisconnectingPrisma
      requires Valid() && S.Enabled(Snapshot(), PhaseEnds(None))
      modifies this
      ensures Valid() && Snapshot() == S.Next(deps, old(Snapshot()), PhaseEnds(None))
    {
      prismaPhase := Some(if race == TimerWon then PhaseTimeout else PhaseOk);
      if deps.hasScheduler {
        Await(Joining);
      } else {
        Await(Returned);
      }
      S.StepKeepsInv(deps, old(Snapshot()), PhaseEnds(None), Snapshot(), begun);
    }

    /** After `await deps.scheduler.forceJoin(...)`; None is a rejection. */
    method AfterForceJoin(answer: Option<bool>)
      requires phase == Joining
      requires Valid() && S.Enabled(Snapshot(), PhaseEnds(answer))
      modifies this
      ensures Valid() && Snapshot() == S.Next(deps, old(Snapshot()), PhaseEnds(answer))
    {
      joined := answer.Some? && answer.value;
      log := log + [JoinReported(joined)];
      assert Snapshot() == S.Conclude(deps, old(Snapshot()), answer);
      Await(Returned);
      S.StepKeepsInv(deps, old(Snapshot()), PhaseEnds(answer), Snapshot(), begun);
    }

    /** The timer armed by boundedPhase fires first. */
    method TimerFires()
      requires Valid() && S.Enabled(Snapshot(), S.TimerFires)
      modifies this
      ensures Valid() && Snapshot() == S.Next(deps, old(Snapshot()), S.TimerFires)
    {
      race := TimerWon;
      log := log + [TimerFired(phase)];
      S.StepKeepsInv(deps, old(Snapshot()), S.TimerFires, Snapshot(), begun);
    }
  }
}
