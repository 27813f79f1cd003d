/** What seeding the demo fixture promises: real rows stay, reruns reach a fixpoint, and exactly when it is refused. */
module DemoFixtureLaws {
  import opened Base
  import opened DemoFixture
  import opened DemoRedemptions
  import opened FindOrCreate

  // ---------------------------------------------------------------- what steps 1 to 4 leave behind

  /** One OWNER account at the sentinel e-mail, with nothing but the demo membership. */
  ghost predicate LoginReady(db: Db, s: Summary) {
    && AdminHits(db.admins) == {s.merchantAdminId}
    && s.merchantAdminId in db.admins && db.admins[s.merchantAdminId].status == ACTIVE && db.admins[s.merchantAdminId].emailVerified
    && IsDemoIdentity(db.memberships, s.merchantAdminId, s.merchantId)
    && Settled(db.memberships, MembershipPlan(s.merchantId, s.merchantAdminId), [s.membershipId])
  }

  /** Every sentinel is settled on the rows of the summary. */
  ghost predicate Ready(db: Db, s: Summary) {
    && Settled(db.merchants, MerchantPlan(), [s.merchantId])
    && LoginReady(db, s)
    && |s.branchIds| == |DEMO_BRANCH_NAMES| && Settled(db.branches, BranchPlan(s.merchantId), s.branchIds)
    && |s.voucherIds| == |DEMO_VOUCHERS| && Settled(db.vouchers, VoucherPlan(s.merchantId), s.voucherIds)
    && |s.userIds| == CUSTOMER_COUNT && Settled(db.users, CustomerPlan(), s.userIds)
  }

  /** Existing accounts stay, except that the one at the sentinel e-mail may get new credentials. */
  ghost predicate OnlyLoginChanges(admins: map<nat, Admin>, admins': map<nat, Admin>) {
    && (forall id | id in admins :: id in admins' && admins'[id].email == admins[id].email)
    && (forall id | id in admins && admins[id].email != DEMO_LOGIN_EMAIL :: admins'[id] == admins[id])
    && (forall id | id in admins' && admins'[id].email != DEMO_LOGIN_EMAIL :: id in admins && admins'[id] == admins[id])
  }

  ghost predicate Grows(db: Db, db': Db, s: Summary) {
    && Extends(db.merchants, db'.merchants, MerchantPlan())
    && OnlyLoginChanges(db.admins, db'.admins)
    && Extends(db.memberships, db'.memberships, MembershipPlan(s.merchantId, s.merchantAdminId))
    && Extends(db.branches, db'.branches, BranchPlan(s.merchantId))
    && Extends(db.vouchers, db'.vouchers, VoucherPlan(s.merchantId))
    && Extends(db.users, db'.users, CustomerPlan())
  }

  lemma AdminStep(db: Db, merchantId: nat, passwordHash: string)
    requires IdsInUse(db) && UniqueColumns(db) && SeedAdmin(db, merchantId, passwordHash).Ok?
    ensures var (db', adminId) := SeedAdmin(db, merchantId, passwordHash).value;
      && db' == db.(admins := db'.admins, nextId := db'.nextId) && db.nextId <= db'.nextId && IdsInUse(db')
      && AdminHits(db'.admins) == {adminId} && OnlyLoginChanges(db.admins, db'.admins)
      && adminId in db'.admins && db'.admins[adminId].status == ACTIVE && db'.admins[adminId].emailVerified
      && (IsDemoIdentity(db.memberships, adminId, merchantId) || (AdminHits(db.admins) == {} && adminId == db.nextId))
  {
    var hits := AdminHits(db.admins);
    if hits != {} {
      var id :| id in hits;
      assert hits == {id};
    }
  }

  /** The membership step finds the verified identity or completes a fresh account. */
  lemma MembershipStep(db: Db, merchantId: nat, adminId: nat)
    requires IdsInUse(db) && SeedMembership(db, merchantId, adminId).Ok?
    requires IsDemoIdentity(db.memberships, adminId, merchantId) || MembershipsOf(db.memberships, adminId) == {}
    ensures var (db', membershipId) := SeedMembership(db, merchantId, adminId).value;
      && db' == db.(memberships := db'.memberships, nextId := db'.nextId) && db.nextId <= db'.nextId && IdsInUse(db')
      && IsDemoIdentity(db'.memberships, adminId, merchantId)
      && Settled(db'.memberships, MembershipPlan(merchantId, adminId), [membershipId])
      && Extends(db.memberships, db'.memberships, MembershipPlan(merchantId, adminId))
  {
    var plan := MembershipPlan(merchantId, adminId);
    EnsureAllSettles(db.memberships, db.nextId, plan, 1);
    EnsureItemSettles(db.memberships, db.nextId, plan, 0);
    var (db', membershipId) := SeedMembership(db, merchantId, adminId).value;
    var done := EnsureAll(db.memberships, db.nextId, plan, 1).value;
    assert EnsureAll(db.memberships, db.nextId, plan, 0) == Ok(Ensured(db.memberships, db.nextId, []));
    assert done.ids == [membershipId];
    if IsDemoIdentity(db.memberships, adminId, merchantId) {
      var k :| k in db.memberships && MembershipsOf(db.memberships, adminId) == {k}
        && db.memberships[k] == Membership(merchantId, adminId, OWNER, true, ACTIVE);
      assert k in Hits(db.memberships, plan, 0);
    } else {
      assert Hits(db.memberships, plan, 0) == {} by {
        assert forall k | k in Hits(db.memberships, plan, 0) :: k in MembershipsOf(db.memberships, adminId);
      }
      assert db'.memberships == db.memberships[db.nextId := plan.created[0]];
      assert MembershipsOf(db'.memberships, adminId) == {db.nextId};
    }
  }

  lemma MerchantStep(db: Db)
    requires IdsInUse(db) && SeedMerchant(db).Ok?
    ensures var (db', merchantId) := SeedMerchant(db).value;
      && db' == db.(merchants := db'.merchants, nextId := db'.nextId) && db.nextId <= db'.nextId && IdsInUse(db')
      && Settled(db'.merchants, MerchantPlan(), [merchantId]) && Extends(db.merchants, db'.merchants, MerchantPlan())
  {
    EnsureAllSettles(db.merchants, db.nextId, MerchantPlan(), 1);
    var done := EnsureAll(db.merchants, db.nextId, MerchantPlan(), 1).value;
    assert done.ids == [done.ids[0]];
  }

  lemma BranchStep(db: Db, merchantId: nat)
    requires IdsInUse(db) && SeedBranches(db, merchantId).Ok?
    ensures var (db', ids) := SeedBranches(db, merchantId).value;
      && db' == db.(branches := db'.branches, nextId := db'.nextId) && db.nextId <= db'.nextId && IdsInUse(db')
      && Settled(db'.branches, BranchPlan(merchantId), ids) && Extends(db.branches, db'.branches, BranchPlan(merchantId))
  {
    BranchPlanIsSound(merchantId);
    EnsureAllSettles(db.branches, db.nextId, BranchPlan(merchantId), |DEMO_BRANCH_NAMES|);
  }

  lemma VoucherStep(db: Db, merchantId: nat)
    requires IdsInUse(db) && SeedVouchers(db, merchantId).Ok?
    ensures var (db', ids) := SeedVouchers(db, merchantId).value;
      && db' == db.(vouchers := db'.vouchers, nextId := db'.nextId) && db.nextId <= db'.nextId && IdsInUse(db')
      && Settled(db'.vouchers, VoucherPlan(merchantId), ids) && Extends(db.vouchers, db'.vouchers, VoucherPlan(merchantId))
  {
    VoucherPlanIsSound(merchantId);
    EnsureAllSettles(db.vouchers, db.nextId, VoucherPlan(merchantId), |DEMO_VOUCHERS|);
  }

  lemma CustomerStep(db: Db)
    requires IdsInUse(db) && SeedCustomers(db).Ok?
    ensures var (db', ids) := SeedCustomers(db).value;
      && db' == db.(users := db'.users, nextId := db'.nextId) && db.nextId <= db'.nextId && IdsInUse(db')
      && Settled(db'.users, CustomerPlan(), ids) && Extends(db.users, db'.users, CustomerPlan())
  {
    CustomerPlanIsSound();
    EnsureAllSettles(db.users, db.nextId, CustomerPlan(), CUSTOMER_COUNT);
  }

  lemma LoginSteps(db: Db, merchantId: nat, passwordHash: string)
    requires IdsInUse(db) && UniqueColumns(db) && ForeignKeysOfMemberships(db)
    requires SeedLogin(db, merchantId, passwordHash).Ok?
    ensures var (db', adminId, membershipId) := SeedLogin(db, merchantId, passwordHash).value;
      && db' == db.(admins := db'.admins, memberships := db'.memberships, nextId := db'.nextId)
      && db.nextId <= db'.nextId && IdsInUse(db')
      && AdminHits(db'.admins) == {adminId} && OnlyLoginChanges(db.admins, db'.admins)
      && adminId in db'.admins && db'.admins[adminId].status == ACTIVE && db'.admins[adminId].emailVerified
      && IsDemoIdentity(db'.memberships, adminId, merchantId)
      && Settled(db'.memberships, MembershipPlan(merchantId, adminId), [membershipId])
      && Extends(db.memberships, db'.memberships, MembershipPlan(merchantId, adminId))
  {
    AdminStep(db, merchantId, passwordHash);
    var (db1, adminId) := SeedAdmin(db, merchantId, passwordHash).value;
    if !IsDemoIdentity(db.memberships, adminId, merchantId) {
      assert adminId == db.nextId;
      assert MembershipsOf(db1.memberships, adminId) == {};
    }
    MembershipStep(db1, merchantId, adminId);
  }

  lemma PartSteps(db: Db, merchantId: nat)
    requires IdsInUse(db) && SeedParts(db, merchantId).Ok?
    ensures var p := SeedParts(db, merchantId).value;
      && p.db == db.(branches := p.db.branches, vouchers := p.db.vouchers, users := p.db.users, nextId := p.db.nextId)
      && db.nextId <= p.db.nextId && IdsInUse(p.db)
      && Settled(p.db.branches, BranchPlan(merchantId), p.branchIds) && Extends(db.branches, p.db.branches, BranchPlan(merchantId))
      && Settled(p.db.vouchers, VoucherPlan(merchantId), p.voucherIds) && Extends(db.vouchers, p.db.vouchers, VoucherPlan(merchantId))
      && Settled(p.db.users, CustomerPlan(), p.userIds) && Extends(db.users, p.db.users, CustomerPlan())
  {
    BranchStep(db, merchantId);
    var db1 := SeedBranches(db, merchantId).value.0;
    VoucherStep(db1, merchantId);
    CustomerStep(SeedVouchers(db1, merchantId).value.0);
  }

  ghost predicate ForeignKeysOfMemberships(db: Db) {
    forall i | i in db.memberships :: db.memberships[i].merchantAdminId in db.admins
  }

  /** After steps 1 to 4 every sentinel is settled, tables have only grown, and no redemption is touched. */
  lemma SeedRowsLeaves(db: Db, passwordHash: string)
    requires WellFormed(db) && SeedRows(db, passwordHash).Ok?
    ensures var out := SeedRows(db, passwordHash).value;
      && Ready(out.db, out.summary) && Grows(db, out.db, out.summary) && IdsInUse(out.db) && db.nextId <= out.db.nextId
      && out.db.redemptions == db.redemptions && out.db.referenced == db.referenced
  {
    MerchantStep(db);
    var (db1, merchantId) := SeedMerchant(db).value;
    LoginSteps(db1, merchantId, passwordHash);
    PartSteps(SeedLogin(db1, merchantId, passwordHash).value.0, merchantId);
  }

  // ---------------------------------------------------------------- frame

  /** Rows that are not test data are the same before and after, none more and none fewer. */
  ghost predicate SameRealRows<Row>(table: map<nat, Row>, table': map<nat, Row>, isTestData: Row -> bool) {
    && (forall id | id in table && !isTestData(table[id]) :: id in table' && table'[id] == table[id])
    && (forall id | id in table' && !isTestData(table'[id]) :: id in table && table[id] == table'[id])
  }

  ghost predicate HasParts(s: Summary) {
    |s.branchIds| == |DEMO_BRANCH_NAMES| && |s.voucherIds| == |DEMO_VOUCHERS| && |s.userIds| == CUSTOMER_COUNT
  }

  /** Test rows on the given branches. */
  ghost predicate TestRowsOn(rows: seq<Redemption>, branchIds: seq<nat>) {
    forall row | row in rows :: row.isTestData && row.branchId in branchIds
  }

  lemma PlannedAreTestRows(s: Summary)
    requires HasParts(s)
    ensures TestRowsOn(PlannedFor(s), s.branchIds)
  {
  }

  /** The rows that survive the scoped delete. */
  ghost function Kept(db: Db, branchIds: seq<nat>): map<nat, Redemption> {
    db.redemptions - FixtureOwned(db.redemptions, branchIds)
  }

  lemma AddedRowsAreTestRows(redemptions: map<nat, Redemption>, branchIds: seq<nat>, nextId: nat, rows: seq<Redemption>)
    requires FreshFrom(redemptions, nextId) && TestRowsOn(rows, branchIds)
    ensures var kept := redemptions - FixtureOwned(redemptions, branchIds);
      SameRealRows(redemptions, WithRows(kept, nextId, rows), IsTestRedemption)
  {
  }

  predicate IsTestMerchant(m: Merchant) { m.isTestData }

  predicate IsTestBranch(b: Branch) { b.isTestData }

  predicate IsTestVoucher(v: Voucher) { v.isTestData }

  predicate IsTestRedemption(r: Redemption) { r.isTestData }

  lemma GrownTablesKeepRealRows(db: Db, db': Db, s: Summary)
    requires Grows(db, db', s)
    ensures SameRealRows(db.merchants, db'.merchants, IsTestMerchant)
    ensures SameRealRows(db.branches, db'.branches, IsTestBranch)
    ensures SameRealRows(db.vouchers, db'.vouchers, IsTestVoucher)
  {
  }

  /** The whole transaction is steps 1 to 4 and then the redemptions. */
  lemma SeedIsRowsThenReconcile(db: Db, passwordHash: string, out: Seeded)
    requires Seed(db, passwordHash) == Ok(out)
    ensures SeedRows(db, passwordHash).Ok? && HasParts(out.summary)
    ensures var mid := SeedRows(db, passwordHash).value;
      && mid.summary == out.summary
      && Reconcile(mid.db, out.summary.branchIds, PlannedFor(out.summary)) == Ok(out.db)
      && out.db == mid.db.(redemptions := WithRows(Kept(mid.db, out.summary.branchIds), mid.db.nextId, PlannedFor(out.summary)),
                           nextId := mid.db.nextId + |PlannedFor(out.summary)|)
  {
  }

  /** No real merchant, branch, voucher or redemption is added, changed or removed, and only the demo login's account changes. */
  lemma RealRowsUntouched(db: Db, passwordHash: string, out: Seeded)
    requires WellFormed(db) && Seed(db, passwordHash) == Ok(out)
    ensures SameRealRows(db.merchants, out.db.merchants, IsTestMerchant)
    ensures SameRealRows(db.branches, out.db.branches, IsTestBranch)
    ensures SameRealRows(db.vouchers, out.db.vouchers, IsTestVoucher)
    ensures SameRealRows(db.redemptions, out.db.redemptions, IsTestRedemption)
    ensures Grows(db, out.db, out.summary)
  {
    SeedRowsLeaves(db, passwordHash);
    SeedIsRowsThenReconcile(db, passwordHash, out);
    GrownTablesKeepRealRows(db, out.db, out.summary);
    PlannedAreTestRows(out.summary);
    AddedRowsAreTestRows(db.redemptions, out.summary.branchIds, SeedRows(db, passwordHash).value.db.nextId, PlannedFor(out.summary));
  }

  // ---------------------------------------------------------------- rerun

  lemma MerchantIsFound(db: Db, merchantId: nat)
    requires Settled(db.merchants, MerchantPlan(), [merchantId])
    ensures SeedMerchant(db) == Ok((db, merchantId))
  {
    SettledTableIsKept(db.merchants, db.nextId, MerchantPlan(), [merchantId]);
  }

  lemma LoginIsFound(db: Db, s: Summary, passwordHash: string)
    requires LoginReady(db, s)
    ensures SeedAdmin(db, s.merchantId, passwordHash) == Ok((WithHash(db, s, passwordHash), s.merchantAdminId))
    ensures SeedMembership(WithHash(db, s, passwordHash), s.merchantId, s.merchantAdminId) == Ok((WithHash(db, s, passwordHash), s.membershipId))
  {
    SettledTableIsKept(db.memberships, db.nextId, MembershipPlan(s.merchantId, s.merchantAdminId), [s.membershipId]);
  }

  lemma BranchesAreFound(db: Db, merchantId: nat, ids: seq<nat>)
    requires |ids| == |DEMO_BRANCH_NAMES| && Settled(db.branches, BranchPlan(merchantId), ids)
    ensures SeedBranches(db, merchantId) == Ok((db, ids))
  {
    SettledTableIsKept(db.branches, db.nextId, BranchPlan(merchantId), ids);
  }

  lemma VouchersAreFound(db: Db, merchantId: nat, ids: seq<nat>)
    requires |ids| == |DEMO_VOUCHERS| && Settled(db.vouchers, VoucherPlan(merchantId), ids)
    ensures SeedVouchers(db, merchantId) == Ok((db, ids))
  {
    SettledTableIsKept(db.vouchers, db.nextId, VoucherPlan(merchantId), ids);
  }

  lemma CustomersAreFound(db: Db, ids: seq<nat>)
    requires |ids| == CUSTOMER_COUNT && Settled(db.users, CustomerPlan(), ids)
    ensures SeedCustomers(db) == Ok((db, ids))
  {
    SettledTableIsKept(db.users, db.nextId, CustomerPlan(), ids);
  }

  /** The database with the login's password hash replaced. */
  ghost function WithHash(db: Db, s: Summary, passwordHash: string): Db
    requires s.merchantAdminId in db.admins
  {
    db.(admins := db.admins[s.merchantAdminId := db.admins[s.merchantAdminId].(passwordHash := passwordHash)])
  }

  /** On settled tables steps 1 to 4 only refresh the password hash. */
  lemma ReadyRowsAreFound(db: Db, s: Summary, passwordHash: string)
    requires Ready(db, s)
    ensures SeedRows(db, passwordHash) == Ok(Seeded(WithHash(db, s, passwordHash), s))
  {
    var db' := WithHash(db, s, passwordHash);
    MerchantIsFound(db, s.merchantId);
    LoginIsFound(db, s, passwordHash);
    BranchesAreFound(db', s.merchantId, s.branchIds);
    VouchersAreFound(db', s.merchantId, s.voucherIds);
    CustomersAreFound(db', s.userIds);
  }

  /** `kept` and, under the ids from `nextId` on, `rows`. */
  ghost predicate HoldsPlan(redemptions: map<nat, Redemption>, kept: map<nat, Redemption>, nextId: nat, rows: seq<Redemption>) {
    && FreshFrom(kept, nextId)
    && (forall id :: id in redemptions <==> id in kept || nextId <= id < nextId + |rows|)
    && (forall id | id in kept :: redemptions[id] == kept[id])
    && (forall id | nextId <= id < nextId + |rows| :: redemptions[id] == rows[id - nextId])
  }

  lemma WithRowsHoldsPlan(kept: map<nat, Redemption>, nextId: nat, rows: seq<Redemption>)
    requires FreshFrom(kept, nextId)
    ensures HoldsPlan(WithRows(kept, nextId, rows), kept, nextId, rows)
  {
  }

  /** The scoped delete removes exactly the rows that were written last. */
  lemma DeleteUndoesPlan(redemptions: map<nat, Redemption>, kept: map<nat, Redemption>, nextId: nat, rows: seq<Redemption>, branchIds: seq<nat>)
    requires HoldsPlan(redemptions, kept, nextId, rows) && TestRowsOn(rows, branchIds) && FixtureOwned(kept, branchIds) == {}
    ensures redemptions - FixtureOwned(redemptions, branchIds) == kept
    ensures forall id | id in FixtureOwned(redemptions, branchIds) :: id >= nextId
  {
    forall id ensures id in FixtureOwned(redemptions, branchIds) <==> nextId <= id < nextId + |rows| {
      if nextId <= id < nextId + |rows| {
        assert rows[id - nextId] in rows;
      } else {
        assert id in FixtureOwned(redemptions, branchIds) ==> id in FixtureOwned(kept, branchIds);
      }
    }
  }

  /** A second reconcile deletes exactly the rows of the first and writes them again under the next ids. */
  lemma ReconcileAgain(db: Db, again: Db, branchIds: seq<nat>, rows: seq<Redemption>)
    requires FreshFrom(db.redemptions, db.nextId) && (forall id | id in db.referenced :: id in db.redemptions)
    requires TestRowsOn(rows, branchIds) && Reconcile(db, branchIds, rows).Ok?
    requires again.redemptions == Reconcile(db, branchIds, rows).value.redemptions && again.referenced == db.referenced
    requires again.nextId == db.nextId + |rows|
    ensures Reconcile(again, branchIds, rows) ==
      Ok(again.(redemptions := WithRows(Kept(db, branchIds), again.nextId, rows), nextId := again.nextId + |rows|))
    ensures HoldsPlan(again.redemptions, Kept(db, branchIds), db.nextId, rows)
    ensures HoldsPlan(WithRows(Kept(db, branchIds), again.nextId, rows), Kept(db, branchIds), again.nextId, rows)
  {
    var kept := Kept(db, branchIds);
    WithRowsHoldsPlan(kept, db.nextId, rows);
    WithRowsHoldsPlan(kept, again.nextId, rows);
    DeleteUndoesPlan(again.redemptions, kept, db.nextId, rows, branchIds);
    assert forall id | id in db.referenced :: id < db.nextId;
  }

  /** The same database up to the login's password hash and the ids of the planned redemptions. */
  ghost predicate SameUpToRefresh(first: Seeded, second: Seeded, passwordHash: string) {
    && second.summary == first.summary && HasParts(first.summary)
    && first.summary.merchantAdminId in first.db.admins
    && second.db == WithHash(first.db, first.summary, passwordHash).(redemptions := second.db.redemptions, nextId := second.db.nextId)
    && exists kept, n, m ::
      && HoldsPlan(first.db.redemptions, kept, n, PlannedFor(first.summary))
      && HoldsPlan(second.db.redemptions, kept, m, PlannedFor(first.summary))
  }

  /** A rerun on the resulting state succeeds and is a fixpoint up to redemption ids and the password hash. */
  lemma RerunIsAFixpoint(db: Db, passwordHash: string, passwordHash': string, first: Seeded)
    requires WellFormed(db) && Seed(db, passwordHash) == Ok(first)
    ensures Seed(first.db, passwordHash').Ok?
    ensures SameUpToRefresh(first, Seed(first.db, passwordHash').value, passwordHash')
  {
    SeedRowsLeaves(db, passwordHash);
    SeedIsRowsThenReconcile(db, passwordHash, first);
    var mid := SeedRows(db, passwordHash).value;
    var s, rows := first.summary, PlannedFor(first.summary);
    assert Ready(first.db, s);
    ReadyRowsAreFound(first.db, s, passwordHash');
    PlannedAreTestRows(s);
    ReconcileAgain(mid.db, WithHash(first.db, s, passwordHash'), s.branchIds, rows);
  }
}
