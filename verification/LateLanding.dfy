/**
 * What the row of a failed create can do when it lands late: come right beside the row of the
 * next alert, or come after `stop` returned drained. Both are runs of module AlertSink, which
 * proves that nothing else breaks the spacing or the silence.
 */
module LateLanding {
  import opened Base
  import opened AlertSink

  const OUTBOX := Key(Expiry, "outbox")

  lemma OneMore(states: seq<State>, steps: seq<Step>, step: Step) returns (more: seq<State>, moreSteps: seq<Step>)
    requires IsExecution(states, steps) && Enabled(states[|steps|], step)
    ensures IsExecution(more, moreSteps) && moreSteps == steps + [step]
    ensures |more| == |states| + 1 && more[..|states|] == states && more[|moreSteps|] == Next(states[|steps|], step)
  {
    more, moreSteps := states + [Next(states[|steps|], step)], steps + [step];
    forall i | 0 <= i < |moreSteps| ensures StepAt(more, moreSteps, i) {
      if i < |steps| {
        assert StepAt(states, steps, i);
      }
    }
  }

  /** No alert is under way, and no row is there. */
  predicate Idle(s: State, writes: seq<Write>) {
    !s.stopped && s.inFlight == {} && s.pending == {} && s.rows == [] && s.stops == [] && s.unsettled == writes && s.now == 0
  }

  /** A fan-out to one recipient found no recent row. */
  predicate AboutToWrite(s: State, t: TaskId, writes: seq<Write>) {
    && Idle(s.(inFlight := {}, pending := {}), writes) && s.inFlight == {OUTBOX} && s.pending == {t}
    && |s.tasks| == t + 1 && s.tasks[t] == Task(OUTBOX, Creating, ["admin"], 0, -DEDUP_WINDOW_MS)
  }

  lemma FanOut(states: seq<State>, steps: seq<Step>, writes: seq<Write>) returns (more: seq<State>, moreSteps: seq<Step>)
    requires IsExecution(states, steps) && Idle(states[|steps|], writes)
    ensures IsExecution(more, moreSteps) && |moreSteps| == |steps| + 3
    ensures AboutToWrite(more[|moreSteps|], |states[|steps|].tasks|, writes)
  {
    var t := |states[|steps|].tasks|;
    more, moreSteps := OneMore(states, steps, CallExpiredComms("outbox", 1));
    more, moreSteps := OneMore(more, moreSteps, AdminsArrive(t, ["admin"]));
    more, moreSteps := OneMore(more, moreSteps, LookupArrives(t));
  }

  /** The first alert fails, with its create left unsettled. */
  lemma FailedAlert() returns (states: seq<State>, steps: seq<Step>)
    ensures IsExecution(states, steps) && |steps| == 5 && Idle(states[5], [Write("admin", OUTBOX)])
  {
    states, steps := [State(false, {}, {}, {}, {}, map[], [], [], [], {}, 0, [])], [];
    states, steps := FanOut(states, steps, []);
    states, steps := OneMore(states, steps, CreateRejects(0, false));
    states, steps := OneMore(states, steps, FinallyRuns(0));
  }

  /** `stop` returned drained, and a notification still comes. */
  lemma LateLandingAfterDrain() returns (states: seq<State>, steps: seq<Step>)
    ensures IsExecution(states, steps) && |steps| == 7 && steps[6] == RowLands(0)
    ensures states[6].stops == [Stop({}, Drained)] && states[6].rows == []
    ensures states[7].rows == [Row("admin", OUTBOX, 0)]
  {
    states, steps := FailedAlert();
    states, steps := OneMore(states, steps, CallStop);
    ghost var drained := states[6];
    states, steps := OneMore(states, steps, RowLands(0));
    assert states[..7][6] == drained;
  }

  /** Two notifications of one identity, at one moment. */
  lemma LateLandingBreaksSpacing() returns (states: seq<State>, steps: seq<Step>)
    ensures IsExecution(states, steps) && |steps| == 10 && steps[9] == RowLands(0)
    ensures states[10].rows == [Row("admin", OUTBOX, 0), Row("admin", OUTBOX, 0)]
  {
    states, steps := FailedAlert();
    ghost var t := |states[5].tasks|;
    states, steps := FanOut(states, steps, [Write("admin", OUTBOX)]);
    states, steps := OneMore(states, steps, CreateArrives(t));
    states, steps := OneMore(states, steps, RowLands(0));
  }
}
