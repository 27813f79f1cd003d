/**
 * What seeding the demo fixture means for the rows themselves: on which rows it is refused, which
 * rows it leaves behind, and what the rows look like that it creates
 * (prisma/insights-demo-fixture.ts:286-568).
 */
module DemoFixtureRows {
  import opened Base
  import opened DemoFixture
  import opened DemoFixtureAdmission
  import opened DemoFixtureLaws
  import opened DemoRedemptions
  import opened FindOrCreate
  import opened Sequences
  import opened Text

  // ---------------------------------------------------------------- which rows answer to a sentinel

  lemma BranchNamesAreDistinct(i: nat, j: nat)
    requires i < |DEMO_BRANCH_NAMES| && j < |DEMO_BRANCH_NAMES| && DEMO_BRANCH_NAMES[i] == DEMO_BRANCH_NAMES[j]
    ensures i == j
  {
    assert DEMO_BRANCH_NAMES[0][16] == 'C' && DEMO_BRANCH_NAMES[1][16] == 'R' && DEMO_BRANCH_NAMES[2][16] == 'N';
  }

  lemma BranchSlot(merchantId: nat, b: Branch, k: nat)
    requires k < |DEMO_BRANCH_NAMES|
    ensures BranchPlan(merchantId).slot(b) == Some(k) <==> b.merchantId == merchantId && b.name == DEMO_BRANCH_NAMES[k]
  {
    var i := IndexOf(DEMO_BRANCH_NAMES, b.name);
    if i.Some? && b.name == DEMO_BRANCH_NAMES[k] {
      BranchNamesAreDistinct(i.value, k);
    }
  }

  lemma VoucherSlot(merchantId: nat, v: Voucher, k: nat)
    requires k < |DEMO_VOUCHERS|
    ensures VoucherPlan(merchantId).slot(v) == Some(k) <==> v.code == DEMO_VOUCHERS[k].code
  {
    assert VOUCHER_CODES[k] == DEMO_VOUCHERS[k].code;
    var i := IndexOf(VOUCHER_CODES, v.code);
    if i.Some? && v.code == DEMO_VOUCHERS[k].code {
      VoucherCodesAreDistinct(i.value, k);
    }
  }

  lemma UserSlot(u: User, k: nat)
    requires k < CUSTOMER_COUNT
    ensures CustomerPlan().slot(u) == Some(k) <==> u.email == CustomerEmail(k)
  {
    assert CUSTOMER_EMAILS[k] == CustomerEmail(k);
    var i := IndexOf(CUSTOMER_EMAILS, u.email);
    if i.Some? && u.email == CustomerEmail(k) {
      CustomerEmailsAreDistinct(i.value, k);
    }
  }

  // ---------------------------------------------------------------- on which rows it is refused

  /** At most one merchant has the sentinel name, and it is test data. */
  ghost predicate MerchantFree(db: Db) {
    forall i | i in db.merchants && db.merchants[i].businessName == "INSIGHTS DEMO (test-data only)" ::
      && db.merchants[i].isTestData
      && forall j | j in db.merchants && db.merchants[j].businessName == "INSIGHTS DEMO (test-data only)" :: i == j
  }

  /** The merchant the fixture works on: the one with the sentinel name, or the one it would create. */
  ghost predicate WorksOn(db: Db, merchantId: nat) {
    if exists i | i in db.merchants :: db.merchants[i].businessName == "INSIGHTS DEMO (test-data only)"
    then merchantId in db.merchants && db.merchants[merchantId].businessName == "INSIGHTS DEMO (test-data only)"
    else merchantId == db.nextId
  }

  /** The membership `k` makes account `a` the owner of that merchant, and of nothing else. */
  ghost predicate OwnsOnly(memberships: map<nat, Membership>, a: nat, merchantId: nat, k: nat) {
    && k in memberships && memberships[k].merchantAdminId == a && memberships[k].merchantId == merchantId
    && memberships[k].role == OWNER && memberships[k].allBranches && memberships[k].status == ACTIVE
    && forall j | j in memberships && memberships[j].merchantAdminId == a :: j == k
  }

  /** An account at the sentinel e-mail has one membership only: active OWNER of all branches of that merchant. */
  ghost predicate LoginFree(db: Db, merchantId: nat) {
    forall a | a in db.admins && db.admins[a].email == "insights-demo-owner@redeemo-insights-demo.invalid" ::
      exists k :: OwnsOnly(db.memberships, a, merchantId, k)
  }

  /** At most one branch of that merchant has each sentinel name, and it is test data. */
  ghost predicate BranchesFree(db: Db, merchantId: nat) {
    forall i | i in db.branches && db.branches[i].merchantId == merchantId && db.branches[i].name in DEMO_BRANCH_NAMES ::
      && db.branches[i].isTestData
      && forall j | j in db.branches && db.branches[j].merchantId == merchantId && db.branches[j].name == db.branches[i].name :: i == j
  }

  /** A voucher with a sentinel code is test data of that merchant. */
  ghost predicate VouchersFree(db: Db, merchantId: nat) {
    forall i, k | i in db.vouchers && 0 <= k < |DEMO_VOUCHERS| && db.vouchers[i].code == DEMO_VOUCHERS[k].code ::
      db.vouchers[i].isTestData && db.vouchers[i].merchantId == merchantId
  }

  /** A test redemption on a branch of that merchant with a sentinel name. */
  ghost predicate IsFixtureRow(db: Db, merchantId: nat, r: Redemption) {
    r.isTestData && r.branchId in db.branches && db.branches[r.branchId].merchantId == merchantId && db.branches[r.branchId].name in DEMO_BRANCH_NAMES
  }

  /** No fixture row is referenced, and no other redemption has a planned code. */
  ghost predicate RedemptionsFree(db: Db, merchantId: nat) {
    && (forall id | id in db.redemptions && IsFixtureRow(db, merchantId, db.redemptions[id]) :: id !in db.referenced)
    && (forall id, k: nat | id in db.redemptions && k < 84 && db.redemptions[id].redemptionCode == "IDEMO-" + PadStart(Decimal(k), 5) ::
          IsFixtureRow(db, merchantId, db.redemptions[id]))
  }

  lemma MerchantMeans(db: Db)
    ensures Acceptable(db.merchants, MerchantPlan(), 0) <==> MerchantFree(db)
  {
    var hits := Hits(db.merchants, MerchantPlan(), 0);
    assert forall i :: i in hits <==> i in db.merchants && db.merchants[i].businessName == "INSIGHTS DEMO (test-data only)";
    if MerchantFree(db) && hits != {} {
      var id :| id in hits;
      assert hits == {id};
    }
  }

  lemma WorksOnMeans(db: Db, merchantId: nat)
    requires WorksOn(db, merchantId) && MerchantFree(db)
    ensures IsDemoMerchant(db, merchantId)
  {
    var hits := Hits(db.merchants, MerchantPlan(), 0);
    assert forall i :: i in hits <==> i in db.merchants && db.merchants[i].businessName == "INSIGHTS DEMO (test-data only)";
    if hits != {} {
      var id :| id in hits;
      assert merchantId in hits && hits == {merchantId};
    }
  }

  lemma IdentityMeans(memberships: map<nat, Membership>, a: nat, merchantId: nat, k: nat)
    requires k in memberships
    ensures (MembershipsOf(memberships, a) == {k} && memberships[k] == Membership(merchantId, a, OWNER, true, ACTIVE)) <==>
      && memberships[k].merchantAdminId == a && memberships[k].merchantId == merchantId
      && memberships[k].role == OWNER && memberships[k].allBranches && memberships[k].status == ACTIVE
      && forall j | j in memberships && memberships[j].merchantAdminId == a :: j == k
  {
    assert forall j :: j in MembershipsOf(memberships, a) <==> j in memberships && memberships[j].merchantAdminId == a;
  }

  lemma IdentityIsOwning(memberships: map<nat, Membership>, a: nat, merchantId: nat)
    ensures IsDemoIdentity(memberships, a, merchantId) <==> exists k :: OwnsOnly(memberships, a, merchantId, k)
  {
    if IsDemoIdentity(memberships, a, merchantId) {
      var k :| k in memberships && MembershipsOf(memberships, a) == {k} && memberships[k] == Membership(merchantId, a, OWNER, true, ACTIVE);
      IdentityMeans(memberships, a, merchantId, k);
      assert OwnsOnly(memberships, a, merchantId, k);
    }
    if k :| OwnsOnly(memberships, a, merchantId, k) {
      IdentityMeans(memberships, a, merchantId, k);
    }
  }

  lemma LoginMeans(db: Db, merchantId: nat)
    ensures (forall a | a in AdminHits(db.admins) :: IsDemoIdentity(db.memberships, a, merchantId)) <==> LoginFree(db, merchantId)
  {
    forall a: nat ensures IsDemoIdentity(db.memberships, a, merchantId) <==> exists k :: OwnsOnly(db.memberships, a, merchantId, k) {
      IdentityIsOwning(db.memberships, a, merchantId);
    }
    assert forall a :: a in AdminHits(db.admins) <==> a in db.admins && db.admins[a].email == "insights-demo-owner@redeemo-insights-demo.invalid";
  }

  lemma OneAcceptable<Row>(table: map<nat, Row>, plan: Plan<Row>, k: nat)
    ensures Acceptable(table, plan, k) <==> forall i | i in Hits(table, plan, k) :: plan.accepted(table[i]) && forall j | j in Hits(table, plan, k) :: i == j
  {
    var hits := Hits(table, plan, k);
    if hits != {} && forall i | i in hits :: plan.accepted(table[i]) && forall j | j in hits :: i == j {
      var id :| id in hits;
      assert hits == {id};
    }
  }

  lemma {:induction false} AllAcceptableMeans<Row>(table: map<nat, Row>, plan: Plan<Row>, n: nat)
    ensures AllAcceptable(table, plan, n) <==> forall k: nat | k < n :: Acceptable(table, plan, k)
  {
    if n > 0 {
      AllAcceptableMeans(table, plan, n - 1);
    }
  }

  lemma BranchHits(db: Db, merchantId: nat, k: nat, i: nat)
    requires k < |DEMO_BRANCH_NAMES|
    ensures i in Hits(db.branches, BranchPlan(merchantId), k) <==>
      i in db.branches && db.branches[i].merchantId == merchantId && db.branches[i].name == DEMO_BRANCH_NAMES[k]
  {
    if i in db.branches {
      BranchSlot(merchantId, db.branches[i], k);
    }
  }

  lemma BranchesMean(db: Db, merchantId: nat)
    ensures AllAcceptable(db.branches, BranchPlan(merchantId), |DEMO_BRANCH_NAMES|) <==> BranchesFree(db, merchantId)
  {
    var plan := BranchPlan(merchantId);
    AllAcceptableMeans(db.branches, plan, |DEMO_BRANCH_NAMES|);
    forall k: nat, i: nat | k < |DEMO_BRANCH_NAMES|
      ensures i in Hits(db.branches, plan, k) <==> i in db.branches && db.branches[i].merchantId == merchantId && db.branches[i].name == DEMO_BRANCH_NAMES[k]
    {
      BranchHits(db, merchantId, k, i);
    }
    forall k: nat | k < |DEMO_BRANCH_NAMES|
      ensures Acceptable(db.branches, plan, k) <==>
        forall i | i in Hits(db.branches, plan, k) :: plan.accepted(db.branches[i]) && forall j | j in Hits(db.branches, plan, k) :: i == j
    {
      OneAcceptable(db.branches, plan, k);
    }
    if forall k: nat | k < |DEMO_BRANCH_NAMES| :: Acceptable(db.branches, plan, k) {
      forall i | i in db.branches && db.branches[i].merchantId == merchantId && db.branches[i].name in DEMO_BRANCH_NAMES
        ensures db.branches[i].isTestData
        ensures forall j | j in db.branches && db.branches[j].merchantId == merchantId && db.branches[j].name == db.branches[i].name :: i == j
      {
        var k :| 0 <= k < |DEMO_BRANCH_NAMES| && DEMO_BRANCH_NAMES[k] == db.branches[i].name;
        assert Acceptable(db.branches, plan, k) && i in Hits(db.branches, plan, k);
      }
    }
  }

  lemma VouchersMean(db: Db, merchantId: nat)
    requires UniqueColumns(db)
    ensures AllAcceptable(db.vouchers, VoucherPlan(merchantId), |DEMO_VOUCHERS|) <==> VouchersFree(db, merchantId)
  {
    var plan := VoucherPlan(merchantId);
    AllAcceptableMeans(db.vouchers, plan, |DEMO_VOUCHERS|);
    forall k: nat | k < |DEMO_VOUCHERS|
      ensures Acceptable(db.vouchers, plan, k) <==>
        forall i | i in db.vouchers && db.vouchers[i].code == DEMO_VOUCHERS[k].code :: db.vouchers[i].isTestData && db.vouchers[i].merchantId == merchantId
    {
      OneAcceptable(db.vouchers, plan, k);
      forall i: nat ensures i in Hits(db.vouchers, plan, k) <==> i in db.vouchers && db.vouchers[i].code == DEMO_VOUCHERS[k].code {
        if i in db.vouchers {
          VoucherSlot(merchantId, db.vouchers[i], k);
        }
      }
    }
  }

  lemma RedemptionsMean(db: Db, merchantId: nat)
    ensures RedemptionsAdoptable(db, merchantId) <==> RedemptionsFree(db, merchantId)
  {
    forall r: Redemption ensures OnDemoBranch(db, merchantId, r) <==> IsFixtureRow(db, merchantId, r) {
    }
    assert forall k: nat :: RedemptionCode(k) == "IDEMO-" + PadStart(Decimal(k), 5);
    assert PLANNED_COUNT == 84;
  }

  /** Seeding succeeds if and only if the rows found leave every sentinel to the fixture. */
  lemma SeedSucceedsExactlyOnRows(db: Db, merchantId: nat, passwordHash: string)
    requires WellFormed(db) && WorksOn(db, merchantId)
    ensures Seed(db, passwordHash).Ok? <==>
      && MerchantFree(db) && LoginFree(db, merchantId) && BranchesFree(db, merchantId)
      && VouchersFree(db, merchantId) && RedemptionsFree(db, merchantId)
  {
    MerchantMeans(db);
    if MerchantFree(db) {
      WorksOnMeans(db, merchantId);
    }
    LoginMeans(db, merchantId);
    BranchesMean(db, merchantId);
    VouchersMean(db, merchantId);
    RedemptionsMean(db, merchantId);
    SeedSucceedsExactly(db, merchantId, passwordHash);
  }

  // ---------------------------------------------------------------- which rows it leaves behind

  ghost predicate NamedBranch(db: Db, merchantId: nat, i: nat, k: nat)
    requires k < |DEMO_BRANCH_NAMES|
  {
    i in db.branches && db.branches[i].merchantId == merchantId && db.branches[i].name == DEMO_BRANCH_NAMES[k]
  }

  ghost predicate CodedVoucher(db: Db, i: nat, k: nat)
    requires k < |DEMO_VOUCHERS|
  {
    i in db.vouchers && db.vouchers[i].code == DEMO_VOUCHERS[k].code
  }

  ghost predicate AddressedUser(db: Db, i: nat, k: nat) {
    i in db.users && db.users[i].email == CustomerEmail(k)
  }

  /** The summary's rows carry the sentinels, and no other row does. */
  ghost predicate SentinelRows(db: Db, s: Summary) {
    && HasParts(s)
    && (forall i :: i == s.merchantId <==> i in db.merchants && db.merchants[i].businessName == "INSIGHTS DEMO (test-data only)")
    && (forall i :: i == s.merchantAdminId <==> i in db.admins && db.admins[i].email == "insights-demo-owner@redeemo-insights-demo.invalid")
    && OwnsOnly(db.memberships, s.merchantAdminId, s.merchantId, s.membershipId)
    && (forall i: nat, k: nat | k < |s.branchIds| :: NamedBranch(db, s.merchantId, i, k) <==> i == s.branchIds[k])
    && (forall i: nat, k: nat | k < |s.voucherIds| :: CodedVoucher(db, i, k) <==> i == s.voucherIds[k])
    && (forall i: nat, k: nat | k < |s.userIds| :: AddressedUser(db, i, k) <==> i == s.userIds[k])
  }

  /** They are test data of that merchant, and the login can be used. */
  ghost predicate SentinelRowsAreDemo(db: Db, s: Summary)
    requires SentinelRows(db, s)
  {
    assert forall k: nat | k < |s.branchIds| :: NamedBranch(db, s.merchantId, s.branchIds[k], k);
    assert forall k: nat | k < |s.voucherIds| :: CodedVoucher(db, s.voucherIds[k], k);
    && db.merchants[s.merchantId].isTestData
    && db.admins[s.merchantAdminId].status == ACTIVE && db.admins[s.merchantAdminId].emailVerified
    && (forall k | 0 <= k < |s.branchIds| :: db.branches[s.branchIds[k]].isTestData)
    && (forall k | 0 <= k < |s.voucherIds| :: db.vouchers[s.voucherIds[k]].isTestData && db.vouchers[s.voucherIds[k]].merchantId == s.merchantId)
  }

  lemma LoginRows(db: Db, s: Summary)
    requires LoginReady(db, s)
    ensures forall i :: i == s.merchantAdminId <==> i in db.admins && db.admins[i].email == "insights-demo-owner@redeemo-insights-demo.invalid"
    ensures OwnsOnly(db.memberships, s.merchantAdminId, s.merchantId, s.membershipId)
  {
    assert forall i :: i in AdminHits(db.admins) <==> i in db.admins && db.admins[i].email == "insights-demo-owner@redeemo-insights-demo.invalid";
    IdentityIsOwning(db.memberships, s.merchantAdminId, s.merchantId);
    var k :| OwnsOnly(db.memberships, s.merchantAdminId, s.merchantId, k);
    assert k in Hits(db.memberships, MembershipPlan(s.merchantId, s.merchantAdminId), 0);
    assert Hits(db.memberships, MembershipPlan(s.merchantId, s.merchantAdminId), 0) == {[s.membershipId][0]};
  }

  lemma MerchantRow(db: Db, s: Summary)
    requires Settled(db.merchants, MerchantPlan(), [s.merchantId])
    ensures forall i :: i == s.merchantId <==> i in db.merchants && db.merchants[i].businessName == "INSIGHTS DEMO (test-data only)"
    ensures s.merchantId in db.merchants && db.merchants[s.merchantId].isTestData
  {
    assert Hits(db.merchants, MerchantPlan(), 0) == {[s.merchantId][0]};
    assert forall i :: i in Hits(db.merchants, MerchantPlan(), 0) <==> i in db.merchants && db.merchants[i].businessName == "INSIGHTS DEMO (test-data only)";
  }

  lemma BranchRow(db: Db, s: Summary, i: nat, k: nat)
    requires k < |s.branchIds| == |DEMO_BRANCH_NAMES| && Settled(db.branches, BranchPlan(s.merchantId), s.branchIds)
    ensures NamedBranch(db, s.merchantId, i, k) <==> i == s.branchIds[k]
    ensures NamedBranch(db, s.merchantId, i, k) ==> db.branches[i].isTestData
  {
    BranchHits(db, s.merchantId, k, i);
    assert Hits(db.branches, BranchPlan(s.merchantId), k) == {s.branchIds[k]};
  }

  lemma VoucherRow(db: Db, s: Summary, i: nat, k: nat)
    requires k < |s.voucherIds| == |DEMO_VOUCHERS| && Settled(db.vouchers, VoucherPlan(s.merchantId), s.voucherIds)
    ensures CodedVoucher(db, i, k) <==> i == s.voucherIds[k]
    ensures CodedVoucher(db, i, k) ==> db.vouchers[i].isTestData && db.vouchers[i].merchantId == s.merchantId
  {
    if i in db.vouchers {
      VoucherSlot(s.merchantId, db.vouchers[i], k);
    }
    assert i in Hits(db.vouchers, VoucherPlan(s.merchantId), k) <==> CodedVoucher(db, i, k);
    assert Hits(db.vouchers, VoucherPlan(s.merchantId), k) == {s.voucherIds[k]};
  }

  lemma UserRow(db: Db, s: Summary, i: nat, k: nat)
    requires k < |s.userIds| == CUSTOMER_COUNT && Settled(db.users, CustomerPlan(), s.userIds)
    ensures AddressedUser(db, i, k) <==> i == s.userIds[k]
  {
    if i in db.users {
      UserSlot(db.users[i], k);
    }
    assert i in Hits(db.users, CustomerPlan(), k) <==> AddressedUser(db, i, k);
    assert Hits(db.users, CustomerPlan(), k) == {s.userIds[k]};
  }

  lemma ReadyMeans(db: Db, s: Summary)
    requires Ready(db, s)
    ensures SentinelRows(db, s) && SentinelRowsAreDemo(db, s)
  {
    MerchantRow(db, s);
    LoginRows(db, s);
    forall i: nat, k: nat | k < |s.branchIds|
      ensures NamedBranch(db, s.merchantId, i, k) <==> i == s.branchIds[k]
      ensures NamedBranch(db, s.merchantId, i, k) ==> db.branches[i].isTestData
    {
      BranchRow(db, s, i, k);
    }
    forall i: nat, k: nat | k < |s.voucherIds|
      ensures CodedVoucher(db, i, k) <==> i == s.voucherIds[k]
      ensures CodedVoucher(db, i, k) ==> db.vouchers[i].isTestData && db.vouchers[i].merchantId == s.merchantId
    {
      VoucherRow(db, s, i, k);
    }
    forall i: nat, k: nat | k < |s.userIds| ensures AddressedUser(db, i, k) <==> i == s.userIds[k] {
      UserRow(db, s, i, k);
    }
  }

  /** What a row that was not there before looks like. */
  ghost predicate NewRows(db: Db, db': Db, s: Summary) {
    && (forall i | i in db'.merchants && i !in db.merchants :: db'.merchants[i].isLive && db'.merchants[i].isTestData)
    && (forall i | i in db'.branches && i !in db.branches ::
          var b := db'.branches[i];
          b.merchantId == s.merchantId && b.isActive && b.isTestData && (b.isMainBranch <==> b.name == DEMO_BRANCH_NAMES[0]))
    && (forall i | i in db'.vouchers && i !in db.vouchers ::
          var v := db'.vouchers[i];
          && v.merchantId == s.merchantId && v.isLive && v.isTestData
          && exists k | 0 <= k < |DEMO_VOUCHERS| :: DemoVoucher(v.code, v.kind, v.title, v.estimatedSaving) == DEMO_VOUCHERS[k])
    && (forall i | i in db'.users && i !in db.users :: db'.users[i].status == ACTIVE)
  }

  lemma GrownRowsAreNew(db: Db, db': Db, s: Summary)
    requires Grows(db, db', s)
    ensures NewRows(db, db', s)
  {
    forall i | i in db'.branches && i !in db.branches
      ensures var b := db'.branches[i];
        b.merchantId == s.merchantId && b.isActive && b.isTestData && (b.isMainBranch <==> b.name == DEMO_BRANCH_NAMES[0])
    {
      NewBranch(s.merchantId, db'.branches[i]);
    }
    forall i | i in db'.vouchers && i !in db.vouchers
      ensures var v := db'.vouchers[i];
        && v.merchantId == s.merchantId && v.isLive && v.isTestData
        && exists k | 0 <= k < |DEMO_VOUCHERS| :: DemoVoucher(v.code, v.kind, v.title, v.estimatedSaving) == DEMO_VOUCHERS[k]
    {
      NewVoucher(s.merchantId, db'.vouchers[i]);
    }
  }

  lemma NewBranch(merchantId: nat, b: Branch)
    requires b in BranchPlan(merchantId).created
    ensures b.merchantId == merchantId && b.isActive && b.isTestData && (b.isMainBranch <==> b.name == DEMO_BRANCH_NAMES[0])
  {
    var k :| 0 <= k < |DEMO_BRANCH_NAMES| && DemoBranches(merchantId)[k] == b;
    assert b.name == DEMO_BRANCH_NAMES[k];
    if b.name == DEMO_BRANCH_NAMES[0] {
      BranchNamesAreDistinct(0, k);
    }
  }

  lemma NewVoucher(merchantId: nat, v: Voucher)
    requires v in VoucherPlan(merchantId).created
    ensures v.merchantId == merchantId && v.isLive && v.isTestData
    ensures exists k | 0 <= k < |DEMO_VOUCHERS| :: DemoVoucher(v.code, v.kind, v.title, v.estimatedSaving) == DEMO_VOUCHERS[k]
  {
    var k :| 0 <= k < |DEMO_VOUCHERS| && VoucherPlan(merchantId).created[k] == v;
    assert v == DemoVoucherRow(merchantId, DEMO_VOUCHERS[k]);
    assert DemoVoucher(v.code, v.kind, v.title, v.estimatedSaving) == DEMO_VOUCHERS[k];
  }

  lemma LoginGetsThePassword(db: Db, passwordHash: string)
    requires SeedRows(db, passwordHash).Ok?
    ensures var out := SeedRows(db, passwordHash).value;
      out.summary.merchantAdminId in out.db.admins && out.db.admins[out.summary.merchantAdminId].passwordHash == passwordHash
  {
    var db1 := SeedMerchant(db).value.0;
    var hits := AdminHits(db1.admins);
    if hits != {} {
      var id :| id in hits;
    }
  }

  lemma SeedingLeavesReadyRows(db: Db, passwordHash: string, out: Seeded)
    requires WellFormed(db) && Seed(db, passwordHash) == Ok(out)
    ensures Ready(out.db, out.summary) && Grows(db, out.db, out.summary)
    ensures SeedRows(db, passwordHash).Ok? && SeedRows(db, passwordHash).value.summary == out.summary
    ensures out.db.admins == SeedRows(db, passwordHash).value.db.admins
  {
    SeedRowsLeaves(db, passwordHash);
    SeedIsRowsThenReconcile(db, passwordHash, out);
  }

  /** After a seeding each sentinel is carried by the one row of the summary, demo data throughout; the login has the given password. */
  lemma SeededRows(db: Db, passwordHash: string, out: Seeded)
    requires WellFormed(db) && Seed(db, passwordHash) == Ok(out)
    ensures SentinelRows(out.db, out.summary) && SentinelRowsAreDemo(out.db, out.summary)
    ensures out.db.admins[out.summary.merchantAdminId].passwordHash == passwordHash
    ensures NewRows(db, out.db, out.summary)
  {
    SeedingLeavesReadyRows(db, passwordHash, out);
    LoginGetsThePassword(db, passwordHash);
    ReadyMeans(out.db, out.summary);
    GrownRowsAreNew(db, out.db, out.summary);
  }

  // ---------------------------------------------------------------- which redemptions it leaves behind

  ghost predicate CarriesCode(db: Db, id: nat, k: nat) {
    id in db.redemptions && db.redemptions[id].redemptionCode == "IDEMO-" + PadStart(Decimal(k), 5)
  }

  /** A test redemption of a demo voucher by a demo customer on a demo branch, saving what the voucher saves. */
  ghost predicate DemoRedemption(r: Redemption, s: Summary) {
    && r.isTestData && r.branchId in s.branchIds && r.userId in s.userIds
    && exists v | 0 <= v < |s.voucherIds| && v < |DEMO_VOUCHERS| :: r.voucherId == s.voucherIds[v] && r.estimatedSaving == DEMO_VOUCHERS[v].estimatedSaving
  }

  lemma ReconciledRows(db: Db, passwordHash: string, out: Seeded) returns (kept: map<nat, Redemption>, n: nat)
    requires WellFormed(db) && Seed(db, passwordHash) == Ok(out)
    ensures HasParts(out.summary) && n >= db.nextId
    ensures HoldsPlan(out.db.redemptions, kept, n, PlannedFor(out.summary)) && !CodeTaken(kept, PlannedFor(out.summary))
    ensures kept == db.redemptions - FixtureOwned(db.redemptions, out.summary.branchIds)
  {
    SeedRowsLeaves(db, passwordHash);
    SeedIsRowsThenReconcile(db, passwordHash, out);
    var mid := SeedRows(db, passwordHash).value.db;
    kept, n := Kept(mid, out.summary.branchIds), mid.nextId;
    WithRowsHoldsPlan(kept, n, PlannedFor(out.summary));
  }

  lemma PlannedRow(s: Summary, k: nat)
    requires HasParts(s) && k < |PlannedFor(s)|
    ensures DemoRedemption(PlannedFor(s)[k], s)
    ensures PlannedFor(s)[k].redemptionCode == "IDEMO-" + PadStart(Decimal(k), 5)
    ensures forall j | 0 <= j < |PlannedFor(s)| && j != k :: PlannedFor(s)[j].redemptionCode != PlannedFor(s)[k].redemptionCode
  {
    PlanIsOnDemoRows(s.branchIds, s.voucherIds, s.userIds, k);
    ValidationAndSavings(s.branchIds, s.voucherIds, s.userIds, k);
  }

  lemma PlannedRowIsFound(db: Db, kept: map<nat, Redemption>, n: nat, rows: seq<Redemption>, k: nat)
    requires HoldsPlan(db.redemptions, kept, n, rows) && !CodeTaken(kept, rows) && k < |rows|
    requires rows[k].redemptionCode == "IDEMO-" + PadStart(Decimal(k), 5)
    requires forall j | 0 <= j < |rows| && j != k :: rows[j].redemptionCode != rows[k].redemptionCode
    ensures CarriesCode(db, n + k, k) && db.redemptions[n + k] == rows[k]
    ensures forall j | CarriesCode(db, j, k) :: j == n + k
  {
  }

  /** Each of the 84 planned codes is carried by one row, which was not there before and is a demo redemption. */
  lemma EveryPlannedCodeOnce(db: Db, passwordHash: string, out: Seeded, k: nat) returns (id: nat)
    requires WellFormed(db) && Seed(db, passwordHash) == Ok(out) && k < 84
    ensures id !in db.redemptions && CarriesCode(out.db, id, k)
    ensures DemoRedemption(out.db.redemptions[id], out.summary)
    ensures forall j | CarriesCode(out.db, j, k) :: j == id
  {
    var kept, n := ReconciledRows(db, passwordHash, out);
    PlannedRow(out.summary, k);
    PlannedRowIsFound(out.db, kept, n, PlannedFor(out.summary), k);
    id := n + k;
  }

  /** The fixture's earlier redemptions are gone, all others stay as they were, and each new one carries a planned code. */
  lemma OnlyFixtureRowsAreReplaced(db: Db, passwordHash: string, out: Seeded, id: nat)
    requires WellFormed(db) && Seed(db, passwordHash) == Ok(out)
    ensures id in db.redemptions ==>
      if db.redemptions[id].isTestData && db.redemptions[id].branchId in out.summary.branchIds then id !in out.db.redemptions
      else id in out.db.redemptions && out.db.redemptions[id] == db.redemptions[id]
    ensures id in out.db.redemptions && id !in db.redemptions ==> exists k: nat | k < 84 :: CarriesCode(out.db, id, k)
  {
    var kept, n := ReconciledRows(db, passwordHash, out);
    if id in out.db.redemptions && id !in db.redemptions {
      assert PlannedFor(out.summary)[id - n].redemptionCode == "IDEMO-" + PadStart(Decimal(id - n), 5);
      assert CarriesCode(out.db, id, id - n);
    }
  }
}
