/** When the demo fixture is refused, and that it keeps the database's own constraints. */
module DemoFixtureAdmission {
  import opened Base
  import opened DemoFixture
  import opened DemoFixtureLaws
  import opened DemoRedemptions
  import opened FindOrCreate
  import opened Sequences

  // ---------------------------------------------------------------- constraints are kept

  ghost predicate UniqueBy<Row, K>(table: map<nat, Row>, column: Row -> K) {
    forall i, j | i in table && j in table && column(table[i]) == column(table[j]) :: i == j
  }

  /** A column that decides the slot stays unique when the table is extended by its plan. */
  lemma ExtensionKeepsUnique<Row, K(!new)>(table: map<nat, Row>, table': map<nat, Row>, plan: Plan<Row>, ids: seq<nat>, column: Row -> K)
    requires UniqueBy(table, column) && Extends(table, table', plan) && Settled(table', plan, ids)
    requires Sound(plan) && |ids| == |plan.created|
    requires forall i, j | i in table' && j in table' && column(table'[i]) == column(table'[j]) :: plan.slot(table'[i]) == plan.slot(table'[j])
    ensures UniqueBy(table', column)
  {
    forall i, j | i in table' && j in table' && column(table'[i]) == column(table'[j]) ensures i == j {
      if i !in table || j !in table {
        var k := CreatedIndex(plan, if i !in table then table'[i] else table'[j]);
        assert Hits(table', plan, k) == {ids[k]};
        OnlyHit(table', plan, k, ids[k], i);
        OnlyHit(table', plan, k, ids[k], j);
      }
    }
  }

  lemma OnlyHit<Row>(table: map<nat, Row>, plan: Plan<Row>, item: nat, id: nat, i: nat)
    requires Hits(table, plan, item) == {id} && i in table && plan.slot(table[i]) == Some(item)
    ensures i == id
  {
    assert i in Hits(table, plan, item);
  }

  lemma CreatedIndex<Row>(plan: Plan<Row>, row: Row) returns (k: nat)
    requires row in plan.created && Sound(plan)
    ensures k < |plan.created| && plan.slot(row) == Some(k)
  {
    k :| 0 <= k < |plan.created| && plan.created[k] == row;
  }

  function MembershipPair(m: Membership): (nat, nat) { (m.merchantId, m.merchantAdminId) }

  function VoucherCode(v: Voucher): string { v.code }

  function UserEmail(u: User): string { u.email }

  lemma LoginStaysUnique(admins: map<nat, Admin>, admins': map<nat, Admin>, adminId: nat)
    requires forall i, j | i in admins && j in admins && admins[i].email == admins[j].email :: i == j
    requires OnlyLoginChanges(admins, admins') && AdminHits(admins') == {adminId}
    ensures forall i, j | i in admins' && j in admins' && admins'[i].email == admins'[j].email :: i == j
  {
    forall i, j | i in admins' && j in admins' && admins'[i].email == admins'[j].email ensures i == j {
      if admins'[i].email == DEMO_LOGIN_EMAIL {
        assert i in AdminHits(admins') && j in AdminHits(admins');
      }
    }
  }

  lemma TablesStayUnique(db: Db, db': Db, s: Summary)
    requires UniqueColumns(db) && Grows(db, db', s) && Ready(db', s)
    ensures forall i, j | i in db'.admins && j in db'.admins && db'.admins[i].email == db'.admins[j].email :: i == j
    ensures UniqueBy(db'.memberships, MembershipPair) && UniqueBy(db'.vouchers, VoucherCode) && UniqueBy(db'.users, UserEmail)
  {
    LoginStaysUnique(db.admins, db'.admins, s.merchantAdminId);
    MembershipsStayUnique(db, db', s);
    VouchersStayUnique(db, db', s);
    UsersStayUnique(db, db', s);
  }

  lemma MembershipsStayUnique(db: Db, db': Db, s: Summary)
    requires UniqueBy(db.memberships, MembershipPair) && Grows(db, db', s) && LoginReady(db', s)
    ensures UniqueBy(db'.memberships, MembershipPair)
  {
    ExtensionKeepsUnique(db.memberships, db'.memberships, MembershipPlan(s.merchantId, s.merchantAdminId), [s.membershipId], MembershipPair);
  }

  lemma VouchersStayUnique(db: Db, db': Db, s: Summary)
    requires UniqueBy(db.vouchers, VoucherCode) && Grows(db, db', s) && Ready(db', s)
    ensures UniqueBy(db'.vouchers, VoucherCode)
  {
    VoucherPlanIsSound(s.merchantId);
    ExtensionKeepsUnique(db.vouchers, db'.vouchers, VoucherPlan(s.merchantId), s.voucherIds, VoucherCode);
  }

  lemma UsersStayUnique(db: Db, db': Db, s: Summary)
    requires UniqueBy(db.users, UserEmail) && Grows(db, db', s) && Ready(db', s)
    ensures UniqueBy(db'.users, UserEmail)
  {
    CustomerPlanIsSound();
    ExtensionKeepsUnique(db.users, db'.users, CustomerPlan(), s.userIds, UserEmail);
  }

  ghost predicate UniqueCodes(redemptions: map<nat, Redemption>) {
    forall i, j | i in redemptions && j in redemptions && redemptions[i].redemptionCode == redemptions[j].redemptionCode :: i == j
  }

  lemma CodesStayUnique(all: map<nat, Redemption>, kept: map<nat, Redemption>, nextId: nat, rows: seq<Redemption>)
    requires HoldsPlan(all, kept, nextId, rows) && UniqueCodes(kept) && !CodeTaken(kept, rows)
    requires forall j, k | 0 <= j < |rows| && 0 <= k < |rows| && rows[j].redemptionCode == rows[k].redemptionCode :: j == k
    ensures UniqueCodes(all)
  {
  }

  lemma PlannedCodesAreDistinct(s: Summary, j: nat, k: nat)
    requires HasParts(s) && j < |PlannedFor(s)| && k < |PlannedFor(s)|
    requires PlannedFor(s)[j].redemptionCode == PlannedFor(s)[k].redemptionCode
    ensures j == k
  {
    CodesAreDistinct(j, k);
  }

  lemma TablesKeepForeignKeys(db: Db, out: Db, s: Summary)
    requires ForeignKeys(db) && Grows(db, out, s) && Ready(out, s)
    ensures forall i | i in out.memberships :: out.memberships[i].merchantAdminId in out.admins
    ensures forall i | i in out.branches :: out.branches[i].merchantId in out.merchants
  {
    assert Settled(out.merchants, MerchantPlan(), [s.merchantId]) && [s.merchantId][0] == s.merchantId;
  }

  lemma RedemptionsKeepForeignKeys(db: Db, out: Db, s: Summary, n: nat, rows: seq<Redemption>)
    requires ForeignKeys(db) && Extends(db.branches, out.branches, BranchPlan(s.merchantId))
    requires HoldsPlan(out.redemptions, Kept(db, s.branchIds), n, rows) && TestRowsOn(rows, s.branchIds)
    requires forall b | b in s.branchIds :: b in out.branches
    requires out.referenced == db.referenced && FixtureOwned(db.redemptions, s.branchIds) * db.referenced == {}
    ensures forall i | i in out.redemptions :: out.redemptions[i].branchId in out.branches
    ensures forall i | i in out.referenced :: i in out.redemptions
  {
    forall i | i in out.redemptions ensures out.redemptions[i].branchId in out.branches {
      if i !in Kept(db, s.branchIds) {
        assert out.redemptions[i] == rows[i - n] && rows[i - n] in rows;
      }
    }
    forall i | i in out.referenced ensures i in out.redemptions {
      assert i in FixtureOwned(db.redemptions, s.branchIds) ==> i in FixtureOwned(db.redemptions, s.branchIds) * db.referenced;
    }
  }

  lemma SettledBranchesExist(db: Db, s: Summary)
    requires Ready(db, s)
    ensures forall b | b in s.branchIds :: b in db.branches
  {
  }

  lemma ReconcileGives(db: Db, branchIds: seq<nat>, rows: seq<Redemption>, out: Db)
    requires FreshFrom(db.redemptions, db.nextId) && Reconcile(db, branchIds, rows) == Ok(out)
    ensures HoldsPlan(out.redemptions, Kept(db, branchIds), db.nextId, rows) && FreshFrom(out.redemptions, out.nextId)
    ensures FixtureOwned(db.redemptions, branchIds) * db.referenced == {} && !CodeTaken(Kept(db, branchIds), rows)
    ensures out == db.(redemptions := out.redemptions, nextId := db.nextId + |rows|)
  {
    WithRowsHoldsPlan(Kept(db, branchIds), db.nextId, rows);
  }

  /** Ids, unique columns and foreign keys hold afterwards as they did before. */
  lemma SeedKeepsWellFormed(db: Db, passwordHash: string, out: Seeded)
    requires WellFormed(db) && Seed(db, passwordHash) == Ok(out)
    ensures WellFormed(out.db)
  {
    var s, rows := out.summary, PlannedFor(out.summary);
    SeedRowsLeaves(db, passwordHash);
    SeedIsRowsThenReconcile(db, passwordHash, out);
    var mid := SeedRows(db, passwordHash).value.db;
    ReconcileGives(mid, s.branchIds, rows, out.db);
    PlannedAreTestRows(s);
    TablesStayUnique(db, mid, s);
    forall j: nat, k: nat | j < |rows| && k < |rows| && rows[j].redemptionCode == rows[k].redemptionCode ensures j == k {
      PlannedCodesAreDistinct(s, j, k);
    }
    CodesStayUnique(out.db.redemptions, Kept(mid, s.branchIds), mid.nextId, rows);
    TablesKeepForeignKeys(db, mid, s);
    SettledBranchesExist(mid, s);
    RedemptionsKeepForeignKeys(db, out.db, s, mid.nextId, rows);
  }

  // ---------------------------------------------------------------- exactly when it succeeds

  /** The merchant the fixture works on: the one with the sentinel name, or the one it would create. */
  ghost predicate IsDemoMerchant(db: Db, merchantId: nat) {
    var hits := Hits(db.merchants, MerchantPlan(), 0);
    if hits == {} then merchantId == db.nextId else hits == {merchantId}
  }

  /** A test redemption on a branch of the demo merchant that has a sentinel name. */
  ghost predicate OnDemoBranch(db: Db, merchantId: nat, r: Redemption) {
    r.isTestData && r.branchId in db.branches && BranchPlan(merchantId).slot(db.branches[r.branchId]).Some?
  }

  ghost predicate IsPlannedCode(code: string) {
    exists k: nat :: k < PLANNED_COUNT && code == RedemptionCode(k)
  }

  /** The login, if it exists, is the demo identity; no sentinel branch or voucher is ambiguous or someone else's. */
  ghost predicate RowsAdoptable(db: Db, merchantId: nat) {
    && (forall a | a in AdminHits(db.admins) :: IsDemoIdentity(db.memberships, a, merchantId))
    && AllAcceptable(db.branches, BranchPlan(merchantId), |DEMO_BRANCH_NAMES|)
    && AllAcceptable(db.vouchers, VoucherPlan(merchantId), |DEMO_VOUCHERS|)
  }

  /** No fixture redemption is referenced, and only fixture redemptions have planned codes. */
  ghost predicate RedemptionsAdoptable(db: Db, merchantId: nat) {
    && (forall id | id in db.redemptions && OnDemoBranch(db, merchantId, db.redemptions[id]) :: id !in db.referenced)
    && (forall id | id in db.redemptions && IsPlannedCode(db.redemptions[id].redemptionCode) :: OnDemoBranch(db, merchantId, db.redemptions[id]))
  }

  lemma MerchantAdmission(db: Db)
    requires IdsInUse(db)
    ensures SeedMerchant(db).Ok? <==> Acceptable(db.merchants, MerchantPlan(), 0)
    ensures SeedMerchant(db).Ok? ==> IsDemoMerchant(db, SeedMerchant(db).value.1)
  {
    EnsureItemSettles(db.merchants, db.nextId, MerchantPlan(), 0);
    assert EnsureAll(db.merchants, db.nextId, MerchantPlan(), 0) == Ok(Ensured(db.merchants, db.nextId, []));
  }

  lemma LoginAdmission(db: Db, merchantId: nat, passwordHash: string)
    requires IdsInUse(db) && UniqueColumns(db)
    ensures SeedAdmin(db, merchantId, passwordHash).Ok? <==> forall a | a in AdminHits(db.admins) :: IsDemoIdentity(db.memberships, a, merchantId)
  {
  }

  /** The pair is unique, so the membership lookup never refuses. */
  lemma MembershipAdmission(db: Db, merchantId: nat, adminId: nat)
    requires IdsInUse(db) && UniqueBy(db.memberships, MembershipPair)
    ensures SeedMembership(db, merchantId, adminId).Ok?
  {
    var plan := MembershipPlan(merchantId, adminId);
    var hits := Hits(db.memberships, plan, 0);
    if hits != {} {
      var id :| id in hits;
      assert forall x | x in hits :: MembershipPair(db.memberships[x]) == MembershipPair(db.memberships[id]);
      assert hits == {id};
    }
    assert Acceptable(db.memberships, plan, 0);
    EnsureItemSettles(db.memberships, db.nextId, plan, 0);
    assert EnsureAll(db.memberships, db.nextId, plan, 0) == Ok(Ensured(db.memberships, db.nextId, []));
  }

  lemma BranchAdmission(db: Db, merchantId: nat)
    requires IdsInUse(db)
    ensures SeedBranches(db, merchantId).Ok? <==> AllAcceptable(db.branches, BranchPlan(merchantId), |DEMO_BRANCH_NAMES|)
  {
    BranchPlanIsSound(merchantId);
    EnsureAllSucceedsExactly(db.branches, db.nextId, BranchPlan(merchantId), |DEMO_BRANCH_NAMES|);
  }

  lemma VoucherAdmission(db: Db, merchantId: nat)
    requires IdsInUse(db)
    ensures SeedVouchers(db, merchantId).Ok? <==> AllAcceptable(db.vouchers, VoucherPlan(merchantId), |DEMO_VOUCHERS|)
  {
    VoucherPlanIsSound(merchantId);
    EnsureAllSucceedsExactly(db.vouchers, db.nextId, VoucherPlan(merchantId), |DEMO_VOUCHERS|);
  }

  /** E-mails are unique, so the customers are never refused. */
  lemma CustomerAdmission(db: Db)
    requires IdsInUse(db) && UniqueBy(db.users, UserEmail)
    ensures SeedCustomers(db).Ok?
  {
    CustomerPlanIsSound();
    CustomersAcceptable(db.users, CUSTOMER_COUNT);
    EnsureAllSucceedsExactly(db.users, db.nextId, CustomerPlan(), CUSTOMER_COUNT);
  }

  lemma {:induction false} CustomersAcceptable(users: map<nat, User>, n: nat)
    requires UniqueBy(users, UserEmail) && n <= CUSTOMER_COUNT
    ensures AllAcceptable(users, CustomerPlan(), n)
  {
    if n > 0 {
      CustomersAcceptable(users, n - 1);
      var hits := Hits(users, CustomerPlan(), n - 1);
      if hits != {} {
        var id :| id in hits;
        assert forall x | x in hits :: UserEmail(users[x]) == UserEmail(users[id]);
        assert hits == {id};
      }
    }
  }

  lemma LoginStepsAdmission(db: Db, merchantId: nat, passwordHash: string)
    requires IdsInUse(db) && UniqueColumns(db)
    ensures SeedLogin(db, merchantId, passwordHash).Ok? <==> forall a | a in AdminHits(db.admins) :: IsDemoIdentity(db.memberships, a, merchantId)
  {
    LoginAdmission(db, merchantId, passwordHash);
    var r := SeedAdmin(db, merchantId, passwordHash);
    if r.Ok? {
      AdminStep(db, merchantId, passwordHash);
      MembershipAdmission(r.value.0, merchantId, r.value.1);
    }
  }

  lemma PartStepsAdmission(db: Db, merchantId: nat)
    requires IdsInUse(db) && UniqueBy(db.users, UserEmail)
    ensures SeedParts(db, merchantId).Ok? <==>
      && AllAcceptable(db.branches, BranchPlan(merchantId), |DEMO_BRANCH_NAMES|)
      && AllAcceptable(db.vouchers, VoucherPlan(merchantId), |DEMO_VOUCHERS|)
  {
    BranchAdmission(db, merchantId);
    if SeedBranches(db, merchantId).Ok? {
      BranchStep(db, merchantId);
      var db1 := SeedBranches(db, merchantId).value.0;
      VoucherAdmission(db1, merchantId);
      if SeedVouchers(db1, merchantId).Ok? {
        VoucherStep(db1, merchantId);
        CustomerAdmission(SeedVouchers(db1, merchantId).value.0);
      }
    }
  }

  /** Steps 1 to 4 succeed exactly when every collision check passes. */
  lemma SeedRowsAdmission(db: Db, merchantId: nat, passwordHash: string)
    requires WellFormed(db) && IsDemoMerchant(db, merchantId) && Acceptable(db.merchants, MerchantPlan(), 0)
    ensures SeedRows(db, passwordHash).Ok? <==> RowsAdoptable(db, merchantId)
    ensures SeedRows(db, passwordHash).Ok? ==> SeedRows(db, passwordHash).value.summary.merchantId == merchantId
  {
    MerchantAdmitted(db, merchantId);
    var db1 := SeedMerchant(db).value.0;
    LoginStepsAdmission(db1, merchantId, passwordHash);
    if SeedLogin(db1, merchantId, passwordHash).Ok? {
      LoginSteps(db1, merchantId, passwordHash);
      var db2 := SeedLogin(db1, merchantId, passwordHash).value.0;
      PartStepsAdmission(db2, merchantId);
    }
  }

  /** The first step succeeds with the demo merchant and touches nothing but its table. */
  lemma MerchantAdmitted(db: Db, merchantId: nat)
    requires WellFormed(db) && IsDemoMerchant(db, merchantId) && Acceptable(db.merchants, MerchantPlan(), 0)
    ensures SeedMerchant(db).Ok? && SeedMerchant(db).value.1 == merchantId
    ensures var db1 := SeedMerchant(db).value.0;
      && db1 == db.(merchants := db1.merchants, nextId := db1.nextId) && IdsInUse(db1) && UniqueColumns(db1)
      && ForeignKeysOfMemberships(db1) && UniqueBy(db1.users, UserEmail)
  {
    MerchantAdmission(db);
    MerchantStep(db);
  }

  /** On settled branches the scoped delete hits exactly the test redemptions on sentinel-named branches. */
  lemma FixtureOwnedExactly(db: Db, mid: Db, s: Summary, id: nat)
    requires ForeignKeys(db) && Ready(mid, s) && Extends(db.branches, mid.branches, BranchPlan(s.merchantId)) && id in db.redemptions
    ensures id in FixtureOwned(db.redemptions, s.branchIds) <==> OnDemoBranch(db, s.merchantId, db.redemptions[id])
  {
    var plan, b := BranchPlan(s.merchantId), db.redemptions[id].branchId;
    assert b in db.branches && mid.branches[b] == db.branches[b];
    if b in s.branchIds {
      var k :| 0 <= k < |s.branchIds| && s.branchIds[k] == b;
      assert b in Hits(mid.branches, plan, k);
    }
    if plan.slot(db.branches[b]).Some? {
      var k := plan.slot(db.branches[b]).value;
      assert b in Hits(mid.branches, plan, k);
      assert Hits(mid.branches, plan, k) == {s.branchIds[k]};
    }
  }

  lemma PlannedCodes(s: Summary, code: string)
    requires HasParts(s)
    ensures IsPlannedCode(code) <==> exists k | 0 <= k < |PlannedFor(s)| :: code == PlannedFor(s)[k].redemptionCode
  {
    if k: nat :| k < PLANNED_COUNT && code == RedemptionCode(k) {
      assert PlannedFor(s)[k].redemptionCode == code;
    }
  }

  lemma ReconcileAdmission(db: Db, mid: Db, s: Summary)
    requires WellFormed(db) && Ready(mid, s) && HasParts(s) && Extends(db.branches, mid.branches, BranchPlan(s.merchantId))
    requires mid.redemptions == db.redemptions && mid.referenced == db.referenced
    ensures Reconcile(mid, s.branchIds, PlannedFor(s)).Ok? <==> RedemptionsAdoptable(db, s.merchantId)
  {
    var rows, owned := PlannedFor(s), FixtureOwned(db.redemptions, s.branchIds);
    forall id | id in db.redemptions
      ensures id in owned <==> OnDemoBranch(db, s.merchantId, db.redemptions[id])
      ensures IsPlannedCode(db.redemptions[id].redemptionCode) <==> exists k | 0 <= k < |rows| :: db.redemptions[id].redemptionCode == rows[k].redemptionCode
    {
      FixtureOwnedExactly(db, mid, s, id);
      PlannedCodes(s, db.redemptions[id].redemptionCode);
    }
    ReconcileRefusals(mid, s.branchIds, rows);
  }

  lemma ReconcileRefusals(mid: Db, branchIds: seq<nat>, rows: seq<Redemption>)
    requires forall id | id in mid.referenced :: id in mid.redemptions
    ensures var owned := FixtureOwned(mid.redemptions, branchIds);
      Reconcile(mid, branchIds, rows).Ok? <==>
        && (forall id | id in owned :: id !in mid.referenced)
        && (forall id, k | id in mid.redemptions && 0 <= k < |rows| && mid.redemptions[id].redemptionCode == rows[k].redemptionCode :: id in owned)
  {
    var owned := FixtureOwned(mid.redemptions, branchIds);
    var kept := mid.redemptions - owned;
    assert CodeTaken(kept, rows) <==>
      (exists id, k | id in mid.redemptions && 0 <= k < |rows| && id !in owned :: mid.redemptions[id].redemptionCode == rows[k].redemptionCode) by {
      if id, k :| id in mid.redemptions && 0 <= k < |rows| && id !in owned && mid.redemptions[id].redemptionCode == rows[k].redemptionCode {
        assert id in kept;
      }
    }
    if owned * mid.referenced == {} {
      forall id | id in owned ensures id !in mid.referenced {
        assert id !in owned * mid.referenced;
      }
    }
  }

  /**
   * The fixture is seeded if and only if at most one merchant has the sentinel name, and it is a
   * test merchant, the login is the demo identity, no sentinel branch or voucher belongs to
   * anyone else, no fixture redemption is referenced, and no other redemption has a planned code.
   */
  lemma SeedSucceedsExactly(db: Db, merchantId: nat, passwordHash: string)
    requires WellFormed(db) && (Acceptable(db.merchants, MerchantPlan(), 0) ==> IsDemoMerchant(db, merchantId))
    ensures Seed(db, passwordHash).Ok? <==> Acceptable(db.merchants, MerchantPlan(), 0) && RowsAdoptable(db, merchantId) && RedemptionsAdoptable(db, merchantId)
  {
    if Acceptable(db.merchants, MerchantPlan(), 0) {
      SeedRowsAdmission(db, merchantId, passwordHash);
      if SeedRows(db, passwordHash).Ok? {
        SeedRowsLeaves(db, passwordHash);
        var mid := SeedRows(db, passwordHash).value;
        ReconcileAdmission(db, mid.db, mid.summary);
        assert Seed(db, passwordHash).Ok? <==> Reconcile(mid.db, mid.summary.branchIds, PlannedFor(mid.summary)).Ok?;
      }
    } else {
      MerchantAdmission(db);
    }
  }
}
