/**
 * The object that `createAlertSink` returns (src/api/queues/maintenanceMetrics.ts): its closure
 * variables as fields, and the code between two awaits as methods. Each method is proved to
 * take the step that module AlertSink reasons about.
 */
module AlertSinkObject {
  import opened S = AlertSink

  class Sink {
    var stopped: bool
    var inFlight: set<Key>
    var pending: set<TaskId>
    var dbDegraded: set<string>
    var degradedEpisode: set<string>
    var counters: map<Counter, int>

    // What the environment holds: launched tasks, database rows, the clock, stop calls.
    var tasks: seq<Task>
    var rows: seq<Row>
    var unsettled: seq<Write>
    var late: set<nat>
    var now: int
    var stops: seq<S.Stop>

    function Snapshot(): S.State
      reads this
    {
      S.State(stopped, inFlight, pending, dbDegraded, degradedEpisode, counters, tasks, rows, unsettled, late, now, stops)
    }

    /** What holds in every state of a run: tasks, identities, rows and stop calls agree. */
    ghost predicate Valid()
      reads this
    {
      S.Inv(Snapshot())
    }

    constructor (rows: seq<Row>, now: int)
      requires forall i | 0 <= i < |rows| :: rows[i].sentAt <= now
      ensures Valid() && S.Created(Snapshot()) && this.rows == rows && this.now == now
    {
      stopped, inFlight, pending := false, {}, {};
      dbDegraded, degradedEpisode, counters := {}, {}, map[];
      tasks, stops := [], [];
      this.rows, this.now := rows, now;
      unsettled, late := [], {};
    }

    method Bump(c: Counter, amount: int)
      modifies this`counters
      ensures counters == S.Bump(old(counters), c, amount)
    {
      counters := counters[c := (if c in counters then counters[c] else 0) + amount];
    }

    method LaunchAlert(key: Key)
      requires Valid()
      modifies this
      ensures Valid() && Snapshot() == S.LaunchAlert(old(Snapshot()), key)
    {
      S.LaunchAlertKeepsInv(Snapshot(), key);
      if stopped {
        return;
      }
      if key in inFlight {
        return;
      }
      inFlight := inFlight + {key};
      var task := |tasks|;
      tasks := tasks + [Task(key, Fetching, [], 0, 0)];
      pending := pending + {task};
    }

    method SweepFailure(name: string, state: SweepState, errorClass: string)
      requires Valid()
      modifies this
      ensures Valid() && Snapshot() == S.Next(old(Snapshot()), CallSweepFailure(name, state, errorClass))
    {
      S.StepKeepsInv(Snapshot(), CallSweepFailure(name, state, errorClass));
      Bump(OfSweep(name, Failures), 1);
      if IsDbUnavailableFailure(state, errorClass) {
        dbDegraded := dbDegraded + {name};
      } else {
        dbDegraded := dbDegraded - {name};
      }
    }

    method SweepDegraded(name: string)
      requires Valid()
      modifies this
      ensures Valid() && Snapshot() == S.Next(old(Snapshot()), CallSweepDegraded(name))
    {
      S.StepKeepsInv(Snapshot(), CallSweepDegraded(name));
      if stopped {
        return;
      }
      Bump(OfSweep(name, DegradedRuns), 1);
      degradedEpisode := degradedEpisode + {name};
      if name in dbDegraded {
        Bump(OfSweep(name, SuppressedDbDown), 1);
        return;
      }
      S.InvIgnoresSignals(old(Snapshot()), Snapshot());
      LaunchAlert(Key(Degraded, name));
    }

    method SweepRecovered(name: string)
      requires Valid()
      modifies this
      ensures Valid() && Snapshot() == S.Next(old(Snapshot()), CallSweepRecovered(name))
    {
      S.StepKeepsInv(Snapshot(), CallSweepRecovered(name));
      if stopped {
        return;
      }
      Bump(OfSweep(name, RecoveredRuns), 1);
      dbDegraded := dbDegraded - {name};
      if name !in degradedEpisode {
        return;
      }
      degradedEpisode := degradedEpisode - {name};
      S.InvIgnoresSignals(old(Snapshot()), Snapshot());
      LaunchAlert(Key(Recovered, name));
    }

    method ExpiredComms(name: string, total: int)
      requires Valid()
      modifies this
      ensures Valid() && Snapshot() == S.Next(old(Snapshot()), CallExpiredComms(name, total))
    {
      S.StepKeepsInv(Snapshot(), CallExpiredComms(name, total));
      Bump(OfSweep(name, ExpiredCommunications), total);
      if stopped {
        return;
      }
      if total <= 0 {
        return;
      }
      S.InvIgnoresSignals(old(Snapshot()), Snapshot());
      LaunchAlert(Key(Expiry, name));
    }

    method AdminsFetched(t: TaskId, admins: seq<AdminId>)
      requires Valid() && S.Enabled(Snapshot(), AdminsArrive(t, admins))
      modifies this
      ensures Valid() && Snapshot() == S.Next(old(Snapshot()), AdminsArrive(t, admins))
    {
      S.StepKeepsInv(Snapshot(), AdminsArrive(t, admins));
      var since := now - DEDUP_WINDOW_MS;
      var phase := if |admins| == 0 then Finished else Looking;
      tasks := tasks[t := Task(tasks[t].key, phase, admins, 0, since)];
    }

    method FetchFailed(t: TaskId)
      requires Valid() && S.Enabled(Snapshot(), AdminsReject(t))
      modifies this
      ensures Valid() && Snapshot() == S.Next(old(Snapshot()), AdminsReject(t))
    {
      S.StepKeepsInv(Snapshot(), AdminsReject(t));
      Bump(LaunchFailed, 1);
      tasks := tasks[t := tasks[t].(phase := Finished)];
    }

    /** The end of one loop iteration: on to the next recipient, or out of the loop. */
    method EndIteration(t: TaskId)
      requires t < |tasks|
      modifies this`tasks
      ensures tasks == old(tasks)[t := S.Advance(old(tasks)[t])]
    {
      var next := tasks[t].next + 1;
      tasks := tasks[t := tasks[t].(next := next, phase := if next < |tasks[t].admins| then Looking else Finished)];
    }

    method LookupReturned(t: TaskId)
      requires Valid() && S.Enabled(Snapshot(), LookupArrives(t))
      modifies this
      ensures Valid() && Snapshot() == S.Next(old(Snapshot()), LookupArrives(t))
    {
      S.StepKeepsInv(Snapshot(), LookupArrives(t));
      var task := tasks[t];
      var recent := FindRecent(task.admins[task.next], task.key, task.since);
      if recent {
        Bump(Deduped(task.key.kind), 1);
        EndIteration(t);
      } else {
        tasks := tasks[t := task.(phase := Creating)];
      }
    }

    /** The `findFirst` query: a scan of the stored rows. */
    method FindRecent(admin: AdminId, key: Key, since: int) returns (found: bool)
      ensures found == S.Recent(rows, admin, key, since)
    {
      for i := 0 to |rows|
        invariant forall j | 0 <= j < i :: !(rows[j].admin == admin && rows[j].key == key && rows[j].sentAt >= since)
      {
        if rows[i].admin == admin && rows[i].key == key && rows[i].sentAt >= since {
          return true;
        }
      }
      return false;
    }

    method LookupFailed(t: TaskId)
      requires Valid() && S.Enabled(Snapshot(), LookupRejects(t))
      modifies this
      ensures Valid() && Snapshot() == S.Next(old(Snapshot()), LookupRejects(t))
    {
      S.StepKeepsInv(Snapshot(), LookupRejects(t));
      Bump(FailedWrite(tasks[t].key.kind), 1);
      EndIteration(t);
    }

    method CreateReturned(t: TaskId)
      requires Valid() && S.Enabled(Snapshot(), CreateArrives(t))
      modifies this
      ensures Valid() && Snapshot() == S.Next(old(Snapshot()), CreateArrives(t))
    {
      S.StepKeepsInv(Snapshot(), CreateArrives(t));
      rows := rows + [Row(tasks[t].admins[tasks[t].next], tasks[t].key, now)];
      Bump(Sent(tasks[t].key.kind), 1);
      EndIteration(t);
    }

    method CreateFailed(t: TaskId, landed: bool)
      requires Valid() && S.Enabled(Snapshot(), CreateRejects(t, landed))
      modifies this
      ensures Valid() && Snapshot() == S.Next(old(Snapshot()), CreateRejects(t, landed))
    {
      if landed {
        rows := rows + [Row(tasks[t].admins[tasks[t].next], tasks[t].key, now)];
      } else {
        unsettled := unsettled + [Write(tasks[t].admins[tasks[t].next], tasks[t].key)];
      }
      Bump(FailedWrite(tasks[t].key.kind), 1);
      EndIteration(t);
      S.StepKeepsInv(old(Snapshot()), CreateRejects(t, landed));
    }

    method Finalize(t: TaskId)
      requires Valid() && S.Enabled(Snapshot(), FinallyRuns(t))
      modifies this
      ensures Valid() && Snapshot() == S.Next(old(Snapshot()), FinallyRuns(t))
    {
      S.StepKeepsInv(Snapshot(), FinallyRuns(t));
      inFlight := inFlight - {tasks[t].key};
      pending := pending - {t};
      tasks := tasks[t := tasks[t].(phase := Settled)];
    }

    /** `stop()` up to its race; `drained` says whether it returned at once. */
    method BeginStop() returns (drained: bool)
      requires Valid()
      modifies this
      ensures Valid() && Snapshot() == S.Next(old(Snapshot()), CallStop) && drained == (old(pending) == {})
    {
      S.StepKeepsInv(Snapshot(), CallStop);
      stopped := true;
      var snapshot := pending;
      drained := snapshot == {};
      stops := stops + [S.Stop(snapshot, if drained then Drained else Draining)];
    }

    /** The race of `stop` number `k` is decided. */
    method EndStop(k: nat, expired: bool)
      requires Valid() && S.Enabled(Snapshot(), if expired then StopExpires(k) else StopDrains(k))
      modifies this
      ensures Valid() && Snapshot() == S.Next(old(Snapshot()), if expired then StopExpires(k) else StopDrains(k))
    {
      S.StepKeepsInv(Snapshot(), if expired then StopExpires(k) else StopDrains(k));
      stops := stops[k := stops[k].(result := if expired then TimedOut else Drained)];
    }
  }
}
