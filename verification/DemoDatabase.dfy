/** The demo fixture's code: call-time guards, then one interactive transaction that commits or leaves no trace. */
module DemoDatabase {
  import opened Base
  import opened DemoFixture
  import opened DemoRedemptions
  import opened FindOrCreate

  /** The process environment that the guards read. */
  datatype Environment = Environment(deployEnv: Option<string>, demoFlag: Option<string>, adminPassword: Option<string>)

  /** The guards, in order; the password they let through. */
  function Guard(env: Environment, meetsPolicy: string -> bool): Result<string, DemoError> {
    if env.deployEnv != Some("staging") then Err(NotStaging)
    else if env.demoFlag != Some("1") then Err(FlagUnset)
    else if env.adminPassword.None? || env.adminPassword.value == "" then Err(PasswordUnset)
    else if !meetsPolicy(env.adminPassword.value) then Err(PasswordTooWeak)
    else Ok(env.adminPassword.value)
  }

  /** The state that the statements of one transaction see and change. */
  class Transaction {
    var db: Db

    constructor (db: Db)
      ensures this.db == db
    {
      this.db := db;
    }

    method FindOrCreateMerchant() returns (r: Result<nat, DemoError>)
      modifies this
      ensures SeedMerchant(old(db)) == if r.Ok? then Ok((db, r.value)) else Err(r.error)
    {
      assert EnsureAll(db.merchants, db.nextId, MerchantPlan(), 0) == Ok(Ensured(db.merchants, db.nextId, []));
      var step := EnsureOne(db.merchants, db.nextId, MerchantPlan(), 0);
      if step.Err? {
        return Err(MerchantCollision(step.error));
      }
      db := db.(merchants := step.value.table, nextId := step.value.nextId);
      return Ok(step.value.id);
    }

    method FindOrCreateAdmin(merchantId: nat, passwordHash: string) returns (r: Result<nat, DemoError>)
      requires UniqueColumns(db)
      modifies this
      ensures SeedAdmin(old(db), merchantId, passwordHash) == if r.Ok? then Ok((db, r.value)) else Err(r.error)
    {
      var hits := AdminHits(db.admins);
      if hits == {} {
        var created := Admin(DEMO_LOGIN_EMAIL, passwordHash, "Insights Demo", ACTIVE, true);
        r := Ok(db.nextId);
        db := db.(admins := db.admins[db.nextId := created], nextId := db.nextId + 1);
        return;
      }
      var id :| id in hits;
      assert hits == {id};
      if !IsDemoIdentity(db.memberships, id, merchantId) {
        return Err(AdminNotDemoIdentity);
      }
      var refreshed := db.admins[id].(passwordHash := passwordHash, emailVerified := true, status := ACTIVE);
      db := db.(admins := db.admins[id := refreshed]);
      return Ok(id);
    }

    method FindOrCreateMembership(merchantId: nat, adminId: nat) returns (r: Result<nat, DemoError>)
      modifies this
      ensures SeedMembership(old(db), merchantId, adminId) == if r.Ok? then Ok((db, r.value)) else Err(r.error)
    {
      var plan := MembershipPlan(merchantId, adminId);
      assert EnsureAll(db.memberships, db.nextId, plan, 0) == Ok(Ensured(db.memberships, db.nextId, []));
      var step := EnsureOne(db.memberships, db.nextId, plan, 0);
      if step.Err? {
        return Err(MembershipCollision);
      }
      db := db.(memberships := step.value.table, nextId := step.value.nextId);
      return Ok(step.value.id);
    }

    method FindOrCreateBranches(merchantId: nat) returns (r: Result<seq<nat>, DemoError>)
      modifies this
      ensures SeedBranches(old(db), merchantId) == if r.Ok? then Ok((db, r.value)) else Err(r.error)
    {
      var plan := BranchPlan(merchantId);
      var branchIds: seq<nat> := [];
      for i := 0 to |DEMO_BRANCH_NAMES|
        invariant db == old(db).(branches := db.branches, nextId := db.nextId)
        invariant EnsureAll(old(db).branches, old(db).nextId, plan, i) == Ok(Ensured(db.branches, db.nextId, branchIds))
      {
        var step := EnsureOne(db.branches, db.nextId, plan, i);
        if step.Err? {
          RefusalEndsThePass(old(db).branches, old(db).nextId, plan, i + 1, |DEMO_BRANCH_NAMES|);
          return Err(BranchCollision(step.error));
        }
        db := db.(branches := step.value.table, nextId := step.value.nextId);
        branchIds := branchIds + [step.value.id];
      }
      return Ok(branchIds);
    }

    method FindOrCreateVouchers(merchantId: nat) returns (r: Result<seq<nat>, DemoError>)
      modifies this
      ensures SeedVouchers(old(db), merchantId) == if r.Ok? then Ok((db, r.value)) else Err(r.error)
    {
      var plan := VoucherPlan(merchantId);
      var voucherIds: seq<nat> := [];
      for i := 0 to |DEMO_VOUCHERS|
        invariant db == old(db).(vouchers := db.vouchers, nextId := db.nextId)
        invariant EnsureAll(old(db).vouchers, old(db).nextId, plan, i) == Ok(Ensured(db.vouchers, db.nextId, voucherIds))
      {
        var step := EnsureOne(db.vouchers, db.nextId, plan, i);
        if step.Err? {
          RefusalEndsThePass(old(db).vouchers, old(db).nextId, plan, i + 1, |DEMO_VOUCHERS|);
          return Err(VoucherCollision(step.error));
        }
        db := db.(vouchers := step.value.table, nextId := step.value.nextId);
        voucherIds := voucherIds + [step.value.id];
      }
      return Ok(voucherIds);
    }

    method UpsertCustomers() returns (r: Result<seq<nat>, DemoError>)
      modifies this
      ensures SeedCustomers(old(db)) == if r.Ok? then Ok((db, r.value)) else Err(r.error)
    {
      var plan := CustomerPlan();
      var userIds: seq<nat> := [];
      for i := 0 to CUSTOMER_COUNT
        invariant db == old(db).(users := db.users, nextId := db.nextId)
        invariant EnsureAll(old(db).users, old(db).nextId, plan, i) == Ok(Ensured(db.users, db.nextId, userIds))
      {
        var step := EnsureOne(db.users, db.nextId, plan, i);
        if step.Err? {
          RefusalEndsThePass(old(db).users, old(db).nextId, plan, i + 1, CUSTOMER_COUNT);
          return Err(CustomerCollision);
        }
        db := db.(users := step.value.table, nextId := step.value.nextId);
        userIds := userIds + [step.value.id];
      }
      return Ok(userIds);
    }

    /** The scoped `deleteMany` and the `createMany`. */
    method ReconcileRedemptions(branchIds: seq<nat>, rows: seq<Redemption>) returns (r: Result<nat, DemoError>)
      modifies this
      ensures Reconcile(old(db), branchIds, rows) == if r.Ok? then Ok(db) else Err(r.error)
      ensures r.Ok? ==> r.value == |rows|
    {
      var doomed := FixtureOwned(db.redemptions, branchIds);
      if doomed * db.referenced != {} {
        return Err(RedemptionReferenced);
      }
      db := db.(redemptions := db.redemptions - doomed);
      if CodeTaken(db.redemptions, rows) {
        return Err(RedemptionCodeTaken);
      }
      db := db.(redemptions := WithRows(db.redemptions, db.nextId, rows), nextId := db.nextId + |rows|);
      return Ok(|rows|);
    }

    /** The body of the transaction. Whatever it leaves in `db` on an error is rolled back. */
    method Run(passwordHash: string) returns (r: Result<(Summary, nat), DemoError>)
      requires WellFormed(db)
      modifies this
      ensures match r
        case Ok((summary, created)) => Seed(old(db), passwordHash) == Ok(Seeded(db, summary)) && created == PLANNED_COUNT
        case Err(e) => Seed(old(db), passwordHash) == Err(e)
    {
      var merchant := FindOrCreateMerchant();
      if merchant.Err? { return Err(merchant.error); }
      var admin := FindOrCreateAdmin(merchant.value, passwordHash);
      if admin.Err? { return Err(admin.error); }
      var membership := FindOrCreateMembership(merchant.value, admin.value);
      if membership.Err? { return Err(membership.error); }
      var branches := FindOrCreateBranches(merchant.value);
      if branches.Err? { return Err(branches.error); }
      var vouchers := FindOrCreateVouchers(merchant.value);
      if vouchers.Err? { return Err(vouchers.error); }
      var customers := UpsertCustomers();
      if customers.Err? { return Err(customers.error); }
      var planned := PlanRedemptions(branches.value, vouchers.value, customers.value);
      var summary := Summary(merchant.value, admin.value, membership.value, branches.value, vouchers.value, customers.value);
      assert SeedRows(old(db), passwordHash) == Ok(Seeded(db, summary));
      var reconciled := ReconcileRedemptions(branches.value, planned);
      if reconciled.Err? { return Err(reconciled.error); }
      return Ok((summary, reconciled.value));
    }
  }

  class Database {
    var committed: Db

    constructor (db: Db)
      ensures committed == db
    {
      committed := db;
    }

    /** A refusal or collision leaves the committed state as it was; success commits the seeded one. */
    method SeedInsightsDemoFixture(env: Environment, meetsPolicy: string -> bool, hashPassword: string -> string)
      returns (r: Result<(Summary, nat), DemoError>)
      requires WellFormed(committed)
      modifies this
      ensures Guard(env, meetsPolicy).Err? ==> r == Err(Guard(env, meetsPolicy).error)
      ensures Guard(env, meetsPolicy).Ok? && r.Err? ==> Seed(old(committed), hashPassword(Guard(env, meetsPolicy).value)) == Err(r.error)
      ensures r.Err? ==> committed == old(committed)
      ensures r.Ok? ==> Guard(env, meetsPolicy).Ok? && r.value.1 == PLANNED_COUNT == 84
      ensures r.Ok? ==> Seed(old(committed), hashPassword(Guard(env, meetsPolicy).value)) == Ok(Seeded(committed, r.value.0))
    {
      var password := Guard(env, meetsPolicy);
      if password.Err? {
        return Err(password.error);
      }
      var tx := new Transaction(committed);
      r := tx.Run(hashPassword(password.value));
      if r.Ok? {
        committed := tx.db;
      }
    }
  }
}
