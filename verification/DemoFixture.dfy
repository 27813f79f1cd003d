/**
 * The demo fixture (prisma/insights-demo-fixture.ts) as a transaction over a database state:
 * tables by id, unique columns and foreign keys, find-or-create with collision checks, and a
 * scoped delete-and-recreate of the planned redemptions.
 */
module DemoFixture {
  import opened Base
  import opened DemoRedemptions
  import opened FindOrCreate
  import opened Sequences
  import opened Text

  // ---------------------------------------------------------------- the database

  datatype UserStatus = ACTIVE | INACTIVE
  datatype Role = OWNER | BRANCH_MANAGER | STAFF

  datatype Merchant = Merchant(businessName: string, isLive: bool, isTestData: bool)
  datatype Admin = Admin(email: string, passwordHash: string, name: string, status: UserStatus, emailVerified: bool)
  datatype Membership = Membership(merchantId: nat, merchantAdminId: nat, role: Role, allBranches: bool, status: UserStatus)
  datatype Branch = Branch(merchantId: nat, name: string, isMainBranch: bool, city: string, postcode: string, isActive: bool, isTestData: bool)
  datatype Voucher = Voucher(merchantId: nat, code: string, kind: VoucherType, title: string, estimatedSaving: real, isLive: bool, isTestData: bool)
  datatype User = User(email: string, status: UserStatus)

  /** `referenced` are redemptions that a screenshot event points to: the foreign key forbids deleting them. */
  datatype Db = Db(
    merchants: map<nat, Merchant>,
    admins: map<nat, Admin>,
    memberships: map<nat, Membership>,
    branches: map<nat, Branch>,
    vouchers: map<nat, Voucher>,
    users: map<nat, User>,
    redemptions: map<nat, Redemption>,
    referenced: set<nat>,
    nextId: nat)

  ghost predicate IdsInUse(db: Db) {
    && FreshFrom(db.merchants, db.nextId) && FreshFrom(db.admins, db.nextId) && FreshFrom(db.memberships, db.nextId)
    && FreshFrom(db.branches, db.nextId) && FreshFrom(db.vouchers, db.nextId) && FreshFrom(db.users, db.nextId)
    && FreshFrom(db.redemptions, db.nextId)
  }

  ghost predicate UniqueColumns(db: Db) {
    && (forall i, j | i in db.admins && j in db.admins && db.admins[i].email == db.admins[j].email :: i == j)
    && (forall i, j | i in db.memberships && j in db.memberships
          && db.memberships[i].merchantId == db.memberships[j].merchantId
          && db.memberships[i].merchantAdminId == db.memberships[j].merchantAdminId :: i == j)
    && (forall i, j | i in db.vouchers && j in db.vouchers && db.vouchers[i].code == db.vouchers[j].code :: i == j)
    && (forall i, j | i in db.users && j in db.users && db.users[i].email == db.users[j].email :: i == j)
    && (forall i, j | i in db.redemptions && j in db.redemptions
          && db.redemptions[i].redemptionCode == db.redemptions[j].redemptionCode :: i == j)
  }

  ghost predicate ForeignKeys(db: Db) {
    && (forall i | i in db.memberships :: db.memberships[i].merchantAdminId in db.admins)
    && (forall i | i in db.branches :: db.branches[i].merchantId in db.merchants)
    && (forall i | i in db.redemptions :: db.redemptions[i].branchId in db.branches)
    && (forall i | i in db.referenced :: i in db.redemptions)
  }

  /** What the database engine guarantees of every state. */
  ghost predicate WellFormed(db: Db) {
    IdsInUse(db) && UniqueColumns(db) && ForeignKeys(db)
  }

  // ---------------------------------------------------------------- the sentinels

  const DEMO_MERCHANT_NAME: string := "INSIGHTS DEMO (test-data only)"
  const DEMO_LOGIN_EMAIL: string := "insights-demo-owner@redeemo-insights-demo.invalid"
  const DEMO_BRANCH_NAMES: seq<string> := ["INSIGHTS DEMO - Central", "INSIGHTS DEMO - Riverside", "INSIGHTS DEMO - Northgate"]
  const CUSTOMER_COUNT: nat := 6

  function CustomerEmail(i: nat): string {
    "insights-demo-customer-" + Decimal(i) + "@redeemo-insights-demo.invalid"
  }

  const CUSTOMER_EMAILS: seq<string> := seq(CUSTOMER_COUNT, i requires 0 <= i => CustomerEmail(i))
  const VOUCHER_CODES: seq<string> := seq(|DEMO_VOUCHERS|, i requires 0 <= i < |DEMO_VOUCHERS| => DEMO_VOUCHERS[i].code)

  function MerchantPlan(): Plan<Merchant> {
    Plan((m: Merchant) => if m.businessName == DEMO_MERCHANT_NAME then Some(0) else None,
         (m: Merchant) => m.isTestData,
         [Merchant(DEMO_MERCHANT_NAME, true, true)])
  }

  function MembershipPlan(merchantId: nat, adminId: nat): Plan<Membership> {
    Plan((m: Membership) => if m.merchantId == merchantId && m.merchantAdminId == adminId then Some(0) else None,
         (m: Membership) => true,
         [Membership(merchantId, adminId, OWNER, true, ACTIVE)])
  }

  function DemoBranches(merchantId: nat): (rows: seq<Branch>)
    ensures |rows| == |DEMO_BRANCH_NAMES|
    ensures forall i | 0 <= i < |rows| :: rows[i].merchantId == merchantId && rows[i].name == DEMO_BRANCH_NAMES[i] && rows[i].isTestData
  {
    [Branch(merchantId, DEMO_BRANCH_NAMES[0], true, "London", "EC1A 1AA", true, true),
     Branch(merchantId, DEMO_BRANCH_NAMES[1], false, "London", "SE1 9AA", true, true),
     Branch(merchantId, DEMO_BRANCH_NAMES[2], false, "Manchester", "M1 1AA", true, true)]
  }

  function BranchPlan(merchantId: nat): Plan<Branch> {
    Plan((b: Branch) => if b.merchantId == merchantId then IndexOf(DEMO_BRANCH_NAMES, b.name) else None,
         (b: Branch) => b.isTestData,
         DemoBranches(merchantId))
  }

  function DemoVoucherRow(merchantId: nat, v: DemoVoucher): Voucher {
    Voucher(merchantId, v.code, v.kind, v.title, v.estimatedSaving, true, true)
  }

  function VoucherPlan(merchantId: nat): Plan<Voucher> {
    Plan((v: Voucher) => IndexOf(VOUCHER_CODES, v.code),
         (v: Voucher) => v.isTestData && v.merchantId == merchantId,
         seq(|DEMO_VOUCHERS|, i requires 0 <= i < |DEMO_VOUCHERS| => DemoVoucherRow(merchantId, DEMO_VOUCHERS[i])))
  }

  function CustomerPlan(): Plan<User> {
    Plan((u: User) => IndexOf(CUSTOMER_EMAILS, u.email),
         (u: User) => true,
         seq(CUSTOMER_COUNT, i requires 0 <= i => User(CustomerEmail(i), ACTIVE)))
  }

  // ---------------------------------------------------------------- soundness of the sentinels

  lemma VoucherCodesAreDistinct(i: nat, j: nat)
    requires i < |VOUCHER_CODES| && j < |VOUCHER_CODES| && VOUCHER_CODES[i] == VOUCHER_CODES[j]
    ensures i == j
  {
  }

  lemma CustomerEmailsAreDistinct(i: nat, j: nat)
    requires i < CUSTOMER_COUNT && j < CUSTOMER_COUNT && CustomerEmail(i) == CustomerEmail(j)
    ensures i == j
  {
    assert CustomerEmail(i)[23] == Digit(i) && CustomerEmail(j)[23] == Digit(j);
    DigitValue(i);
    DigitValue(j);
  }

  lemma BranchPlanIsSound(merchantId: nat)
    ensures Sound(BranchPlan(merchantId)) && |BranchPlan(merchantId).created| == |DEMO_BRANCH_NAMES|
  {
  }

  lemma VoucherPlanIsSound(merchantId: nat)
    ensures Sound(VoucherPlan(merchantId)) && |VoucherPlan(merchantId).created| == |DEMO_VOUCHERS|
  {
    var v := VoucherPlan(merchantId);
    forall i: nat | i < |v.created| ensures v.slot(v.created[i]) == Some(i) {
      assert v.created[i].code == VOUCHER_CODES[i];
      VoucherCodesAreDistinct(i, IndexOf(VOUCHER_CODES, VOUCHER_CODES[i]).value);
    }
  }

  lemma CustomerPlanIsSound()
    ensures Sound(CustomerPlan()) && |CustomerPlan().created| == CUSTOMER_COUNT
  {
    var c := CustomerPlan();
    forall i: nat | i < |c.created| ensures c.slot(c.created[i]) == Some(i) {
      assert c.created[i].email == CUSTOMER_EMAILS[i];
      CustomerEmailsAreDistinct(i, IndexOf(CUSTOMER_EMAILS, CUSTOMER_EMAILS[i]).value);
    }
  }

  // ---------------------------------------------------------------- the transaction

  datatype DemoError =
    | NotStaging | FlagUnset | PasswordUnset | PasswordTooWeak
    | MerchantCollision(why: Refusal) | AdminNotDemoIdentity | MembershipCollision | BranchCollision(why: Refusal)
    | VoucherCollision(why: Refusal) | CustomerCollision | RedemptionReferenced | RedemptionCodeTaken

  function AdminHits(admins: map<nat, Admin>): set<nat> {
    set id | id in admins && admins[id].email == DEMO_LOGIN_EMAIL
  }

  function MembershipsOf(memberships: map<nat, Membership>, adminId: nat): set<nat> {
    set k | k in memberships && memberships[k].merchantAdminId == adminId
  }

  /** Exactly one membership: OWNER of all branches, active, on the demo merchant. */
  predicate IsDemoIdentity(memberships: map<nat, Membership>, adminId: nat, merchantId: nat) {
    exists k | k in memberships ::
      MembershipsOf(memberships, adminId) == {k} && memberships[k] == Membership(merchantId, adminId, OWNER, true, ACTIVE)
  }

  ghost function EnsureAdmin(admins: map<nat, Admin>, memberships: map<nat, Membership>, nextId: nat, merchantId: nat, passwordHash: string)
    : Result<Step<Admin>, DemoError>
  {
    var hits := AdminHits(admins);
    if hits == {} then
      Ok(Step(admins[nextId := Admin(DEMO_LOGIN_EMAIL, passwordHash, "Insights Demo", ACTIVE, true)], nextId + 1, nextId))
    else
      var id :| id in hits;
      if IsDemoIdentity(memberships, id, merchantId)
      then Ok(Step(admins[id := admins[id].(passwordHash := passwordHash, emailVerified := true, status := ACTIVE)], nextId, id))
      else Err(AdminNotDemoIdentity)
  }

  datatype Summary = Summary(merchantId: nat, merchantAdminId: nat, membershipId: nat, branchIds: seq<nat>, voucherIds: seq<nat>, userIds: seq<nat>)

  datatype Seeded = Seeded(db: Db, summary: Summary)

  /** Step 1: the demo merchant. */
  ghost function SeedMerchant(db: Db): Result<(Db, nat), DemoError> {
    var r := EnsureAll(db.merchants, db.nextId, MerchantPlan(), 1);
    if r.Err? then Err(MerchantCollision(r.error))
    else Ok((db.(merchants := r.value.table, nextId := r.value.nextId), r.value.ids[0]))
  }

  /** Step 1b: the login. */
  ghost function SeedAdmin(db: Db, merchantId: nat, passwordHash: string): Result<(Db, nat), DemoError> {
    var r := EnsureAdmin(db.admins, db.memberships, db.nextId, merchantId, passwordHash);
    if r.Err? then Err(r.error)
    else Ok((db.(admins := r.value.table, nextId := r.value.nextId), r.value.id))
  }

  ghost function SeedMembership(db: Db, merchantId: nat, adminId: nat): Result<(Db, nat), DemoError> {
    var r := EnsureAll(db.memberships, db.nextId, MembershipPlan(merchantId, adminId), 1);
    if r.Err? then Err(MembershipCollision)
    else Ok((db.(memberships := r.value.table, nextId := r.value.nextId), r.value.ids[0]))
  }

  /** Step 2. */
  ghost function SeedBranches(db: Db, merchantId: nat): (r: Result<(Db, seq<nat>), DemoError>)
    ensures r.Ok? ==> |r.value.1| == |DEMO_BRANCH_NAMES|
  {
    var r := EnsureAll(db.branches, db.nextId, BranchPlan(merchantId), |DEMO_BRANCH_NAMES|);
    if r.Err? then Err(BranchCollision(r.error))
    else Ok((db.(branches := r.value.table, nextId := r.value.nextId), r.value.ids))
  }

  /** Step 3. */
  ghost function SeedVouchers(db: Db, merchantId: nat): (r: Result<(Db, seq<nat>), DemoError>)
    ensures r.Ok? ==> |r.value.1| == |DEMO_VOUCHERS|
  {
    var r := EnsureAll(db.vouchers, db.nextId, VoucherPlan(merchantId), |DEMO_VOUCHERS|);
    if r.Err? then Err(VoucherCollision(r.error))
    else Ok((db.(vouchers := r.value.table, nextId := r.value.nextId), r.value.ids))
  }

  /** Step 4. */
  ghost function SeedCustomers(db: Db): (r: Result<(Db, seq<nat>), DemoError>)
    ensures r.Ok? ==> |r.value.1| == CUSTOMER_COUNT
  {
    var r := EnsureAll(db.users, db.nextId, CustomerPlan(), CUSTOMER_COUNT);
    if r.Err? then Err(CustomerCollision)
    else Ok((db.(users := r.value.table, nextId := r.value.nextId), r.value.ids))
  }

  function FixtureOwned(redemptions: map<nat, Redemption>, branchIds: seq<nat>): set<nat> {
    set id | id in redemptions && redemptions[id].branchId in branchIds && redemptions[id].isTestData
  }

  /** The ids that the next `n` rows get. */
  function IdRange(nextId: nat, n: nat): (ids: set<nat>)
    ensures forall id :: id in ids <==> nextId <= id < nextId + n
  {
    if n == 0 then {} else IdRange(nextId, n - 1) + {nextId + n - 1}
  }

  function WithRows(kept: map<nat, Redemption>, nextId: nat, rows: seq<Redemption>): map<nat, Redemption> {
    kept + map id | id in IdRange(nextId, |rows|) :: rows[id - nextId]
  }

  predicate CodeTaken(kept: map<nat, Redemption>, rows: seq<Redemption>) {
    exists id, k | id in kept && 0 <= k < |rows| :: kept[id].redemptionCode == rows[k].redemptionCode
  }

  /** Step 5: the scoped delete and the recreate. */
  ghost function Reconcile(db: Db, branchIds: seq<nat>, rows: seq<Redemption>): Result<Db, DemoError> {
    var doomed := FixtureOwned(db.redemptions, branchIds);
    var kept := db.redemptions - doomed;
    if doomed * db.referenced != {} then Err(RedemptionReferenced)
    else if CodeTaken(kept, rows) then Err(RedemptionCodeTaken)
    else Ok(db.(redemptions := WithRows(kept, db.nextId, rows), nextId := db.nextId + |rows|))
  }

  /** The account and its membership. */
  ghost function SeedLogin(db: Db, merchantId: nat, passwordHash: string): Result<(Db, nat, nat), DemoError> {
    var a := SeedAdmin(db, merchantId, passwordHash);
    if a.Err? then Err(a.error) else
    var o := SeedMembership(a.value.0, merchantId, a.value.1);
    if o.Err? then Err(o.error) else Ok((o.value.0, a.value.1, o.value.1))
  }

  datatype Parts = Parts(db: Db, branchIds: seq<nat>, voucherIds: seq<nat>, userIds: seq<nat>)

  /** Branches, vouchers and customers. */
  ghost function SeedParts(db: Db, merchantId: nat): (r: Result<Parts, DemoError>)
    ensures r.Ok? ==>
      |r.value.branchIds| == |DEMO_BRANCH_NAMES| && |r.value.voucherIds| == |DEMO_VOUCHERS| && |r.value.userIds| == CUSTOMER_COUNT
  {
    var b := SeedBranches(db, merchantId);
    if b.Err? then Err(b.error) else
    var v := SeedVouchers(b.value.0, merchantId);
    if v.Err? then Err(v.error) else
    var u := SeedCustomers(v.value.0);
    if u.Err? then Err(u.error) else Ok(Parts(u.value.0, b.value.1, v.value.1, u.value.1))
  }

  /** Steps 1 to 4; the first error ends them. */
  ghost function SeedRows(db: Db, passwordHash: string): (r: Result<Seeded, DemoError>)
    ensures r.Ok? ==> var s := r.value.summary;
      |s.branchIds| == |DEMO_BRANCH_NAMES| && |s.voucherIds| == |DEMO_VOUCHERS| && |s.userIds| == CUSTOMER_COUNT
  {
    var m := SeedMerchant(db);
    if m.Err? then Err(m.error) else
    var l := SeedLogin(m.value.0, m.value.1, passwordHash);
    if l.Err? then Err(l.error) else
    var p := SeedParts(l.value.0, m.value.1);
    if p.Err? then Err(p.error) else
    Ok(Seeded(p.value.db, Summary(m.value.1, l.value.1, l.value.2, p.value.branchIds, p.value.voucherIds, p.value.userIds)))
  }

  ghost function PlannedFor(s: Summary): seq<Redemption>
    requires s.branchIds != [] && s.voucherIds != [] && s.userIds != []
  {
    Planned(s.branchIds, s.voucherIds, s.userIds)
  }

  /** The whole transaction. */
  ghost function Seed(db: Db, passwordHash: string): Result<Seeded, DemoError> {
    var r := SeedRows(db, passwordHash);
    if r.Err? then r
    else
      var out := Reconcile(r.value.db, r.value.summary.branchIds, PlannedFor(r.value.summary));
      if out.Err? then Err(out.error) else Ok(Seeded(out.value, r.value.summary))
  }
}
