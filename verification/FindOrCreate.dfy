/**
 * Find-or-create by a sentinel, as the demo fixture (prisma/insights-demo-fixture.ts) does it for
 * every entity: look up the rows that answer to an item, refuse an ambiguous or foreign one,
 * reuse the only acceptable one, or create a row with a fresh id.
 */
module FindOrCreate {
  import opened Base

  datatype Refusal = TooMany | NotOurs

  /** How a table is searched and extended: which item a row answers to, which rows may be reused, what is created. */
  datatype Plan<!Row> = Plan(slot: Row -> Option<nat>, accepted: Row -> bool, created: seq<Row>)

  datatype Step<Row> = Step(table: map<nat, Row>, nextId: nat, id: nat)

  datatype Ensured<Row> = Ensured(table: map<nat, Row>, nextId: nat, ids: seq<nat>)

  function Hits<Row>(table: map<nat, Row>, plan: Plan<Row>, item: nat): set<nat> {
    set id | id in table && plan.slot(table[id]) == Some(item)
  }

  ghost function EnsureItem<Row>(table: map<nat, Row>, nextId: nat, plan: Plan<Row>, item: nat): Result<Step<Row>, Refusal>
    requires item < |plan.created|
  {
    var hits := Hits(table, plan, item);
    if |hits| > 1 then Err(TooMany)
    else if hits == {} then Ok(Step(table[nextId := plan.created[item]], nextId + 1, nextId))
    else
      var id :| id in hits;
      if plan.accepted(table[id]) then Ok(Step(table, nextId, id)) else Err(NotOurs)
  }

  /** The first `n` items, one after the other. */
  ghost function EnsureAll<Row>(table: map<nat, Row>, nextId: nat, plan: Plan<Row>, n: nat): (r: Result<Ensured<Row>, Refusal>)
    requires n <= |plan.created|
    ensures r.Ok? ==> |r.value.ids| == n
    decreases n, table
  {
    if n == 0 then Ok(Ensured(table, nextId, []))
    else
      var done := EnsureAll(table, nextId, plan, n - 1);
      if done.Err? then done
      else
        var step := EnsureItem(done.value.table, done.value.nextId, plan, n - 1);
        if step.Err? then Err(step.error)
        else Ok(Ensured(step.value.table, step.value.nextId, done.value.ids + [step.value.id]))
  }

  /** Ids that are given out next are not in use. */
  ghost predicate FreshFrom<Row>(table: map<nat, Row>, nextId: nat) {
    forall id | id in table :: id < nextId
  }

  /** A created row answers to its item and is acceptable. */
  ghost predicate Sound<Row>(plan: Plan<Row>) {
    forall item: nat | item < |plan.created| :: plan.slot(plan.created[item]) == Some(item) && plan.accepted(plan.created[item])
  }

  /** Nothing answers to the item, or exactly one acceptable row does. */
  ghost predicate Acceptable<Row>(table: map<nat, Row>, plan: Plan<Row>, item: nat) {
    var hits := Hits(table, plan, item);
    hits == {} || exists id | id in hits :: hits == {id} && plan.accepted(table[id])
  }

  /** Each of the first items has exactly its id, on an acceptable row. */
  ghost predicate Settled<Row>(table: map<nat, Row>, plan: Plan<Row>, ids: seq<nat>) {
    forall item | 0 <= item < |ids| ::
      Hits(table, plan, item) == {ids[item]} && ids[item] in table && plan.accepted(table[ids[item]])
  }

  lemma Singleton<T>(s: set<T>, x: T)
    requires |s| <= 1 && x in s
    ensures s == {x} && |s| == 1
  {
    assert s * {x} == {x} && |s - {x}| == 0;
    assert s == {x} + (s - {x});
  }

  /** One item is found or created exactly when it is acceptable, and then it is settled. */
  lemma EnsureItemSettles<Row>(table: map<nat, Row>, nextId: nat, plan: Plan<Row>, item: nat)
    requires FreshFrom(table, nextId) && Sound(plan) && item < |plan.created|
    ensures EnsureItem(table, nextId, plan, item).Ok? <==> Acceptable(table, plan, item)
    ensures EnsureItem(table, nextId, plan, item).Ok? ==>
      var step := EnsureItem(table, nextId, plan, item).value;
      && Hits(step.table, plan, item) == {step.id} && step.id in step.table && plan.accepted(step.table[step.id])
      && ((step.table == table && step.nextId == nextId) ||
          (step.table == table[nextId := plan.created[item]] && step.id == nextId && step.nextId == nextId + 1))
  {
    var hits := Hits(table, plan, item);
    if hits == {} {
      assert Hits(table[nextId := plan.created[item]], plan, item) == {nextId};
    } else {
      var id :| id in hits;
      if |hits| <= 1 {
        Singleton(hits, id);
      } else {
        forall x | x in hits ensures hits != {x} {
          assert |{x}| == 1;
        }
      }
    }
  }

  lemma CreatedRowAnswersToOneItem<Row>(table: map<nat, Row>, nextId: nat, plan: Plan<Row>, item: nat, other: nat)
    requires FreshFrom(table, nextId) && Sound(plan) && item < |plan.created| && item != other
    ensures Hits(table[nextId := plan.created[item]], plan, other) == Hits(table, plan, other)
  {
  }

  /** Old rows keep their ids and contents; new rows are created ones. */
  ghost predicate Extends<Row>(table: map<nat, Row>, table': map<nat, Row>, plan: Plan<Row>) {
    && (forall id | id in table :: id in table' && table'[id] == table[id])
    && (forall id | id in table' && id !in table :: table'[id] in plan.created)
  }

  /** What a pass over the first items leaves behind. */
  ghost predicate PassedOver<Row>(table: map<nat, Row>, nextId: nat, plan: Plan<Row>, done: Ensured<Row>) {
    && nextId <= done.nextId
    && FreshFrom(done.table, done.nextId)
    && Settled(done.table, plan, done.ids)
    && Extends(table, done.table, plan)
    && forall item | item >= |done.ids| :: Hits(done.table, plan, item) == Hits(table, plan, item)
  }

  lemma OneMoreItem<Row>(table: map<nat, Row>, nextId: nat, plan: Plan<Row>, done: Ensured<Row>)
    requires Sound(plan) && PassedOver(table, nextId, plan, done) && |done.ids| < |plan.created|
    requires EnsureItem(done.table, done.nextId, plan, |done.ids|).Ok?
    ensures var step := EnsureItem(done.table, done.nextId, plan, |done.ids|).value;
      PassedOver(table, nextId, plan, Ensured(step.table, step.nextId, done.ids + [step.id]))
  {
    var n := |done.ids|;
    EnsureItemSettles(done.table, done.nextId, plan, n);
    var step := EnsureItem(done.table, done.nextId, plan, n).value;
    forall other: nat | other != n ensures Hits(step.table, plan, other) == Hits(done.table, plan, other) {
      CreatedRowAnswersToOneItem(done.table, done.nextId, plan, n, other);
    }
    var ids := done.ids + [step.id];
    forall item | 0 <= item < |ids|
      ensures Hits(step.table, plan, item) == {ids[item]} && ids[item] in step.table && plan.accepted(step.table[ids[item]])
    {
      if item < n {
        assert ids[item] in done.table && ids[item] < done.nextId;
      }
    }
  }

  lemma EnsureAllUnfolds<Row>(table: map<nat, Row>, nextId: nat, plan: Plan<Row>, n: nat) returns (before: Ensured<Row>, step: Step<Row>)
    requires 0 < n <= |plan.created| && EnsureAll(table, nextId, plan, n).Ok?
    ensures EnsureAll(table, nextId, plan, n - 1) == Ok(before)
    ensures EnsureItem(before.table, before.nextId, plan, n - 1) == Ok(step)
    ensures EnsureAll(table, nextId, plan, n) == Ok(Ensured(step.table, step.nextId, before.ids + [step.id]))
  {
    before := EnsureAll(table, nextId, plan, n - 1).value;
    step := EnsureItem(before.table, before.nextId, plan, n - 1).value;
  }

  lemma NothingPassedYet<Row>(table: map<nat, Row>, nextId: nat, plan: Plan<Row>)
    requires FreshFrom(table, nextId)
    ensures PassedOver(table, nextId, plan, Ensured(table, nextId, []))
  {
  }

  lemma {:induction false} EnsureAllSettles<Row>(table: map<nat, Row>, nextId: nat, plan: Plan<Row>, n: nat)
    requires FreshFrom(table, nextId) && Sound(plan) && n <= |plan.created|
    ensures var done := EnsureAll(table, nextId, plan, n);
      done.Ok? ==> PassedOver(table, nextId, plan, done.value)
  {
    if n > 0 {
      EnsureAllSettles(table, nextId, plan, n - 1);
      if EnsureAll(table, nextId, plan, n).Ok? {
        var before, step := EnsureAllUnfolds(table, nextId, plan, n);
        OneMoreItem(table, nextId, plan, before);
      }
    } else {
      NothingPassedYet(table, nextId, plan);
    }
  }

  lemma AcceptableUntilReached<Row>(table: map<nat, Row>, nextId: nat, plan: Plan<Row>, done: Ensured<Row>)
    requires PassedOver(table, nextId, plan, done)
    ensures Acceptable(done.table, plan, |done.ids|) <==> Acceptable(table, plan, |done.ids|)
  {
  }

  /** Recursive, so that an induction can peel off the last item. */
  ghost predicate AllAcceptable<Row>(table: map<nat, Row>, plan: Plan<Row>, n: nat)
    decreases n, table
  {
    n == 0 || (AllAcceptable(table, plan, n - 1) && Acceptable(table, plan, n - 1))
  }

  lemma OneMoreSucceedsExactly<Row>(table: map<nat, Row>, nextId: nat, plan: Plan<Row>, done: Ensured<Row>)
    requires Sound(plan) && PassedOver(table, nextId, plan, done) && |done.ids| < |plan.created|
    ensures EnsureItem(done.table, done.nextId, plan, |done.ids|).Ok? <==> Acceptable(table, plan, |done.ids|)
  {
    EnsureItemSettles(done.table, done.nextId, plan, |done.ids|);
    AcceptableUntilReached(table, nextId, plan, done);
  }

  /** The pass succeeds exactly when every item is acceptable at the start. */
  lemma {:induction false} EnsureAllSucceedsExactly<Row>(table: map<nat, Row>, nextId: nat, plan: Plan<Row>, n: nat)
    requires FreshFrom(table, nextId) && Sound(plan) && n <= |plan.created|
    ensures EnsureAll(table, nextId, plan, n).Ok? <==> AllAcceptable(table, plan, n)
  {
    if n > 0 {
      EnsureAllSucceedsExactly(table, nextId, plan, n - 1);
      if EnsureAll(table, nextId, plan, n - 1).Ok? {
        EnsureAllSettles(table, nextId, plan, n - 1);
        OneMoreSucceedsExactly(table, nextId, plan, EnsureAll(table, nextId, plan, n - 1).value);
      }
    }
  }

  /** A settled table is left as it is. */
  lemma {:induction false} SettledIsKept<Row>(table: map<nat, Row>, nextId: nat, plan: Plan<Row>, ids: seq<nat>, n: nat)
    requires Settled(table, plan, ids) && n <= |ids| <= |plan.created|
    ensures EnsureAll(table, nextId, plan, n) == Ok(Ensured(table, nextId, ids[..n]))
  {
    if n > 0 {
      SettledIsKept(table, nextId, plan, ids, n - 1);
      assert Hits(table, plan, n - 1) == {ids[n - 1]};
      assert ids[..n] == ids[..n - 1] + [ids[n - 1]];
    }
  }

  lemma SettledTableIsKept<Row>(table: map<nat, Row>, nextId: nat, plan: Plan<Row>, ids: seq<nat>)
    requires Settled(table, plan, ids) && |ids| <= |plan.created|
    ensures EnsureAll(table, nextId, plan, |ids|) == Ok(Ensured(table, nextId, ids))
  {
    SettledIsKept(table, nextId, plan, ids, |ids|);
    assert ids[..|ids|] == ids;
  }

  lemma {:induction false} RefusalEndsThePass<Row>(table: map<nat, Row>, nextId: nat, plan: Plan<Row>, k: nat, n: nat)
    requires k <= n <= |plan.created| && EnsureAll(table, nextId, plan, k).Err?
    ensures EnsureAll(table, nextId, plan, n) == EnsureAll(table, nextId, plan, k)
  {
    if k < n {
      RefusalEndsThePass(table, nextId, plan, k, n - 1);
    }
  }

  /** The lookup, the checks and the create of one item. */
  method EnsureOne<Row>(table: map<nat, Row>, nextId: nat, plan: Plan<Row>, item: nat) returns (r: Result<Step<Row>, Refusal>)
    requires item < |plan.created|
    ensures r == EnsureItem(table, nextId, plan, item)
  {
    var hits := Hits(table, plan, item);
    if |hits| > 1 {
      return Err(TooMany);
    }
    if hits == {} {
      return Ok(Step(table[nextId := plan.created[item]], nextId + 1, nextId));
    }
    var id :| id in hits;
    Singleton(hits, id);
    if !plan.accepted(table[id]) {
      return Err(NotOurs);
    }
    return Ok(Step(table, nextId, id));
  }
}
