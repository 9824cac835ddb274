/** What the seed script does to the database: five stages, each a lookup and at most one write,
    none of them in a transaction with another, so a run can stop after any of them. */
module Seed {
  import opened Collections
  import opened Text
  import opened Permissions
  import opened Accounts

  const PO_CREATE := Ascii("po.create")
  const PO_READ := Ascii("po.read")
  const PO_APPROVE := Ascii("po.approve")
  const REQUESTER_PERMISSIONS: List := [PO_CREATE, PO_READ]
  const APPROVER_PERMISSIONS: List := [PO_APPROVE, PO_READ]
  const ADMIN := "admin"
  const APPROVER := "approver"

  datatype Env = Env(
    adminUsername: Option<string>, adminPassword: Option<string>,
    approverUsername: Option<string>, approverPassword: Option<string>, tenantName: Option<string>)

  datatype Inputs = Inputs(
    tenantName: string, adminUsername: string, adminPassword: string,
    approverUsername: string, approverPassword: string)

  datatype SeedError = AdminUnset | ApproverUnset | DatabaseFailed

  // An unset variable and an empty one are refused alike; an empty tenant name is not.
  function ReadEnv(env: Env): Result<Inputs, SeedError> {
    if env.adminUsername.None? || env.adminPassword.None? || env.adminUsername.value == "" || env.adminPassword.value == ""
    then Err(AdminUnset)
    else if env.approverUsername.None? || env.approverPassword.None?
            || env.approverUsername.value == "" || env.approverPassword.value == ""
    then Err(ApproverUnset)
    else Ok(Inputs(if env.tenantName.Some? then env.tenantName.value else "default",
                   env.adminUsername.value, env.adminPassword.value,
                   env.approverUsername.value, env.approverPassword.value))
  }

  /** The random parts of one run: the ids of the rows it may insert, and the password hashes. */
  datatype Draws = Draws(
    tenant: Id, adminRole: Id, approverRole: Id, admin: Id, approver: Id, adminHash: string, approverHash: string)

  ghost predicate Fresh(draws: Draws, db: Db) {
    && draws.tenant !in db.tenants && draws.adminRole !in db.roles && draws.approverRole !in db.roles
    && draws.admin !in db.users && draws.approver !in db.users
    && draws.adminRole != draws.approverRole && draws.admin != draws.approver
    && "" !in {draws.tenant, draws.adminRole, draws.approverRole, draws.admin, draws.approver}
  }

  ghost function WithTenant(tenants: map<Id, Tenant>, name: string, newId: Id): map<Id, Tenant> {
    if TenantNamed(tenants, name).Some? then tenants else tenants[newId := Tenant(name)]
  }

  ghost function WithRole(roles: map<Id, Role>, tenantId: Id, name: string, permissions: List, newId: Id): map<Id, Role> {
    var found := RoleNamed(roles, tenantId, name);
    if found.None? then roles[newId := Role(tenantId, name, Join(permissions))]
    else if UpToDate(roles[found.value].permissions, permissions) then roles
    else roles[found.value := roles[found.value].(permissions := Join(permissions))]
  }

  ghost function WithUser(users: map<Id, User>, tenantId: Id, username: string, hash: string, roleId: Id, newId: Id)
    : map<Id, User>
  {
    var found := UserNamed(users, username);
    if found.None? then users[newId := User(username, hash, tenantId, Some(roleId))]
    else if users[found.value].roleId.None?
    then users[found.value := users[found.value].(roleId := Some(roleId))]
    else users
  }

  ghost function TheTenant(tenants: map<Id, Tenant>, i: Inputs): Id {
    var found := TenantNamed(tenants, i.tenantName);
    if found.Some? then found.value else ""
  }

  ghost function TheRole(db: Db, i: Inputs, name: string): Id {
    var found := RoleNamed(db.roles, TheTenant(db.tenants, i), name);
    if found.Some? then found.value else ""
  }

  type StageNo = k: nat | 1 <= k <= 5 witness 1

  ghost function Stage(db: Db, i: Inputs, draws: Draws, k: StageNo): Db {
    var t := TheTenant(db.tenants, i);
    if k == 1 then db.(tenants := WithTenant(db.tenants, i.tenantName, draws.tenant))
    else if k == 2 then db.(roles := WithRole(db.roles, t, ADMIN, REQUESTER_PERMISSIONS, draws.adminRole))
    else if k == 3 then db.(roles := WithRole(db.roles, t, APPROVER, APPROVER_PERMISSIONS, draws.approverRole))
    else if k == 4
    then db.(users := WithUser(db.users, t, i.adminUsername, draws.adminHash, TheRole(db, i, ADMIN), draws.admin))
    else db.(users := WithUser(db.users, t, i.approverUsername, draws.approverHash, TheRole(db, i, APPROVER), draws.approver))
  }

  // The database when a run stops after n stages.
  ghost function After(db: Db, i: Inputs, draws: Draws, n: nat): Db
    requires n <= 5
  {
    if n == 0 then db else Stage(After(db, i, draws, n - 1), i, draws, n)
  }

  // Stage k would find nothing to write.
  ghost predicate Settled(db: Db, i: Inputs, k: StageNo) {
    if k == 1 then TenantNamed(db.tenants, i.tenantName).Some?
    else if k == 2 then RoleSettled(db.roles, TheTenant(db.tenants, i), ADMIN, REQUESTER_PERMISSIONS)
    else if k == 3 then RoleSettled(db.roles, TheTenant(db.tenants, i), APPROVER, APPROVER_PERMISSIONS)
    else if k == 4 then UserSettled(db.users, i.adminUsername)
    else UserSettled(db.users, i.approverUsername)
  }

  ghost predicate RoleSettled(roles: map<Id, Role>, tenantId: Id, name: string, permissions: List) {
    var found := RoleNamed(roles, tenantId, name);
    found.Some? && UpToDate(roles[found.value].permissions, permissions)
  }

  ghost predicate UserSettled(users: map<Id, User>, username: string) {
    var found := UserNamed(users, username);
    found.Some? && users[found.value].roleId.Some?
  }

  ghost predicate SettledTo(db: Db, i: Inputs, n: nat) {
    n <= 5 && forall k: StageNo :: k <= n ==> Settled(db, i, k)
  }

  ghost predicate Seeded(db: Db, i: Inputs) {
    SettledTo(db, i, 5)
  }

  // ---- ensureRole for any permissions ----

  // The role is rewritten exactly when its permissions differ from the target as multisets.
  // Afterwards they are equal if and only if the column can hold the target.
  lemma EnsureRoleUpserts(roles: map<Id, Role>, tenantId: Id, name: string, permissions: List, newId: Id)
    requires RolesUnique(roles) && newId !in roles
    ensures (var before, roles' := RoleNamed(roles, tenantId, name), WithRole(roles, tenantId, name, permissions, newId);
             var after := RoleNamed(roles', tenantId, name);
             && RolesUnique(roles') && after == Some(if before.Some? then before.value else newId)
             && (before.Some? && multiset(Split(roles[before.value].permissions)) == multiset(permissions) ==> roles' == roles)
             && (before.None? || multiset(Split(roles[before.value].permissions)) != multiset(permissions) ==>
                   && roles' == roles[after.value := Role(tenantId, name, Join(permissions))]
                   && (multiset(Split(roles'[after.value].permissions)) == multiset(permissions)
                       <==> Storable(permissions))))
  {
    var before, roles' := RoleNamed(roles, tenantId, name), WithRole(roles, tenantId, name, permissions, newId);
    ColumnRoundTrip(permissions);
    if before.Some? {
      UpToDateIffSame(roles[before.value].permissions, permissions);
      assert before.value in roles';
    } else {
      assert newId in roles' && roles'[newId].tenantId == tenantId && roles'[newId].name == name;
    }
    hide UpToDate, Storable, Join, Split;
  }

  lemma ConstantsStorable()
    ensures Storable(REQUESTER_PERMISSIONS) && Storable(APPROVER_PERMISSIONS)
    ensures PO_CREATE !in APPROVER_PERMISSIONS && PO_APPROVE !in REQUESTER_PERMISSIONS
  {
    assert PO_CREATE[3] == 'c' as int && PO_READ[3] == 'r' as int && PO_APPROVE[3] == 'a' as int;
    assert forall s :: s in {"po.create", "po.read", "po.approve"} ==> ',' !in s;
  }

  // ---- What one stage keeps ----

  lemma TenantStage(tenants: map<Id, Tenant>, name: string, newId: Id)
    requires NamesUnique(tenants) && newId !in tenants
    ensures (var tenants' := WithTenant(tenants, name, newId);
             && NamesUnique(tenants') && TenantNamed(tenants', name).Some? && tenants.Keys <= tenants'.Keys
             && tenants'.Keys <= tenants.Keys + {newId})
  {
    if TenantNamed(tenants, name).None? {
      assert newId in WithTenant(tenants, name, newId);
    }
  }

  lemma RoleStage(roles: map<Id, Role>, tenants: map<Id, Tenant>, tenantId: Id, name: string, permissions: List, newId: Id)
    requires RolesUnique(roles) && RoleReferences(roles, tenants) && tenantId in tenants
    requires newId !in roles && Storable(permissions)
    ensures (var roles' := WithRole(roles, tenantId, name, permissions, newId);
             var found := RoleNamed(roles', tenantId, name);
             && RolesUnique(roles') && RoleReferences(roles', tenants) && roles.Keys <= roles'.Keys
             && roles'.Keys <= roles.Keys + {newId}
             && found.Some? && UpToDate(roles'[found.value].permissions, permissions))
  {
    hide UpToDate, Storable, Join, Split;
    var roles' := WithRole(roles, tenantId, name, permissions, newId);
    EnsureRoleUpserts(roles, tenantId, name, permissions, newId);
    UpToDateIffSame(roles'[RoleNamed(roles', tenantId, name).value].permissions, permissions);
  }

  // Another role of the same or another tenant is found as before.
  lemma OtherRole(roles: map<Id, Role>, tenantId: Id, name: string, permissions: List, newId: Id, otherTenant: Id, other: string)
    requires RolesUnique(roles) && newId !in roles && (otherTenant != tenantId || other != name)
    ensures (var roles' := WithRole(roles, tenantId, name, permissions, newId);
             var was := RoleNamed(roles, otherTenant, other);
             && RoleNamed(roles', otherTenant, other) == was
             && (was.Some? ==> roles'[was.value] == roles[was.value]))
  {
    EnsureRoleUpserts(roles, tenantId, name, permissions, newId);
    hide UpToDate, Join, Split, Storable;
    var roles', was := WithRole(roles, tenantId, name, permissions, newId), RoleNamed(roles, otherTenant, other);
    if was.Some? {
      assert was.value in roles' && roles'[was.value] == roles[was.value];
    }
  }

  lemma UserStage(users: map<Id, User>, tenants: map<Id, Tenant>, roles: map<Id, Role>,
                  tenantId: Id, username: string, hash: string, roleId: Id, newId: Id)
    requires UsernamesUnique(users) && UserReferences(users, tenants, roles) && tenantId in tenants && roleId in roles
    requires newId !in users
    ensures (var users' := WithUser(users, tenantId, username, hash, roleId, newId);
             && UsernamesUnique(users') && UserReferences(users', tenants, roles) && UserSettled(users', username)
             && users'.Keys <= users.Keys + {newId})
  {
    var users', was := WithUser(users, tenantId, username, hash, roleId, newId), UserNamed(users, username);
    if was.None? {
      assert newId in users' && users'[newId].username == username;
    } else {
      assert was.value in users';
    }
  }

  lemma OtherUser(users: map<Id, User>, tenantId: Id, username: string, hash: string, roleId: Id, newId: Id, other: string)
    requires UsernamesUnique(users) && newId !in users && UserSettled(users, other)
    ensures UserSettled(WithUser(users, tenantId, username, hash, roleId, newId), other)
  {
    var users', was := WithUser(users, tenantId, username, hash, roleId, newId), UserNamed(users, other).value;
    assert was in users' && users'[was].username == other && users'[was].roleId.Some?;
    assert UsernamesUnique(users');
  }

  // The id stage k would insert under is unused.
  ghost predicate FreshAt(draws: Draws, db: Db, k: StageNo) {
    if k == 1 then draws.tenant !in db.tenants && draws.tenant != ""
    else if k == 2 then draws.adminRole !in db.roles && draws.adminRole != ""
    else if k == 3 then draws.approverRole !in db.roles && draws.approverRole != ""
    else if k == 4 then draws.admin !in db.users && draws.admin != ""
    else draws.approver !in db.users && draws.approver != ""
  }

  // A stage settles itself and leaves the earlier stages settled.
  lemma StageSettles(db: Db, i: Inputs, draws: Draws, k: StageNo)
    requires Constraints(db) && SettledTo(db, i, k - 1) && FreshAt(draws, db, k)
    ensures Constraints(Stage(db, i, draws, k)) && SettledTo(Stage(db, i, draws, k), i, k)
  {
    hide NamesUnique, RolesUnique, UsernamesUnique, UpToDate, Storable, WithTenant, WithRole, WithUser, UserSettled;
    var t := TheTenant(db.tenants, i);
    ConstantsStorable();
    if k == 1 {
      TenantStage(db.tenants, i.tenantName, draws.tenant);
    } else {
      assert Settled(db, i, 1);
      if k == 2 {
        RoleStage(db.roles, db.tenants, t, ADMIN, REQUESTER_PERMISSIONS, draws.adminRole);
      } else if k == 3 {
        assert Settled(db, i, 2);
        RoleStage(db.roles, db.tenants, t, APPROVER, APPROVER_PERMISSIONS, draws.approverRole);
        OtherRole(db.roles, t, APPROVER, APPROVER_PERMISSIONS, draws.approverRole, t, ADMIN);
      } else {
        assert Settled(db, i, 2) && Settled(db, i, 3);
        if k == 4 {
          UserStage(db.users, db.tenants, db.roles, t, i.adminUsername, draws.adminHash, TheRole(db, i, ADMIN), draws.admin);
        } else {
          assert Settled(db, i, 4);
          var roleId := TheRole(db, i, APPROVER);
          UserStage(db.users, db.tenants, db.roles, t, i.approverUsername, draws.approverHash, roleId, draws.approver);
          OtherUser(db.users, t, i.approverUsername, draws.approverHash, roleId, draws.approver, i.adminUsername);
        }
      }
    }
  }

  // A settled stage writes nothing.
  lemma SettledIsQuiet(db: Db, i: Inputs, draws: Draws, k: StageNo)
    requires Settled(db, i, k)
    ensures Stage(db, i, draws, k) == db
  {
    hide UpToDate;
  }

  // ---- Whole runs, finished or not ----

  // A run adds at most the rows it drew ids for.
  ghost predicate Grown(before: Db, after: Db, draws: Draws, n: nat) {
    && after.tenants.Keys <= before.tenants.Keys + (if n >= 1 then {draws.tenant} else {})
    && after.roles.Keys <= before.roles.Keys + (if n >= 2 then {draws.adminRole} else {})
                         + (if n >= 3 then {draws.approverRole} else {})
    && after.users.Keys <= before.users.Keys + (if n >= 4 then {draws.admin} else {})
                         + (if n >= 5 then {draws.approver} else {})
  }

  lemma StageKeys(db: Db, i: Inputs, draws: Draws)
    ensures WithTenant(db.tenants, i.tenantName, draws.tenant).Keys <= db.tenants.Keys + {draws.tenant}
    ensures forall t, name, permissions, id ::
              WithRole(db.roles, t, name, permissions, id).Keys <= db.roles.Keys + {id}
    ensures forall t, username, hash, r, id ::
              WithUser(db.users, t, username, hash, r, id).Keys <= db.users.Keys + {id}
  {
    hide UpToDate, Join;
  }

  lemma StageGrows(before: Db, db: Db, i: Inputs, draws: Draws, k: StageNo)
    requires Grown(before, db, draws, k - 1)
    ensures Grown(before, Stage(db, i, draws, k), draws, k)
  {
    StageKeys(db, i, draws);
    hide WithTenant, WithRole, WithUser;
  }

  // Wherever a run stops, the constraints hold and the stages it finished are settled.
  lemma {:induction false} PartialRun(db: Db, i: Inputs, draws: Draws, n: nat)
    requires Constraints(db) && Fresh(draws, db) && n <= 5
    ensures (var after := After(db, i, draws, n);
             Constraints(after) && SettledTo(after, i, n) && Grown(db, after, draws, n))
  {
    hide Constraints, Settled, Stage;
    if n > 0 {
      PartialRun(db, i, draws, n - 1);
      StageSettles(After(db, i, draws, n - 1), i, draws, n);
      StageGrows(db, After(db, i, draws, n - 1), i, draws, n);
    }
  }

  lemma StageReady(db: Db, i: Inputs, draws: Draws, k: StageNo)
    requires Constraints(db) && Fresh(draws, db)
    ensures (var before := After(db, i, draws, k - 1);
             && NamesUnique(before.tenants) && RolesUnique(before.roles) && UsernamesUnique(before.users)
             && FreshAt(draws, before, k))
  {
    hide NamesUnique, RolesUnique, UsernamesUnique, RoleReferences, UserReferences, SettledTo, After;
    PartialRun(db, i, draws, k - 1);
    GrownFresh(db, After(db, i, draws, k - 1), draws, k);
    hide Fresh, Grown, FreshAt;
  }

  lemma GrownFresh(db: Db, before: Db, draws: Draws, k: StageNo)
    requires Fresh(draws, db) && Grown(db, before, draws, k - 1)
    ensures FreshAt(draws, before, k)
  {
    if k == 1 {
    } else if k == 2 {
    } else if k == 3 {
    } else if k == 4 {
    }
  }

  lemma {:induction false} SettledRun(db: Db, i: Inputs, draws: Draws, m: nat, n: nat)
    requires SettledTo(db, i, m) && n <= m <= 5
    ensures After(db, i, draws, n) == db
    decreases n
  {
    hide Settled, Stage;
    if n > 0 {
      SettledRun(db, i, draws, m, n - 1);
      SettledIsQuiet(db, i, draws, n);
    }
  }

  // The writes of the first n stages.
  ghost function Writes(db: Db, i: Inputs, draws: Draws, n: nat): nat
    requires n <= 5
  {
    if n == 0 then 0
    else Writes(db, i, draws, n - 1) + if Settled(After(db, i, draws, n - 1), i, n) then 0 else 1
  }

  // One stage more, if the stage is a user's.
  lemma UserStageIs(db: Db, i: Inputs, draws: Draws, k: StageNo)
    requires k == 4 || k == 5
    ensures (var before := After(db, i, draws, k - 1);
             var t := TheTenant(before.tenants, i);
             var username, hash, id, role :=
               if k == 4 then i.adminUsername else i.approverUsername,
               if k == 4 then draws.adminHash else draws.approverHash,
               if k == 4 then draws.admin else draws.approver,
               TheRole(before, i, if k == 4 then ADMIN else APPROVER);
             && After(db, i, draws, k) == before.(users := WithUser(before.users, t, username, hash, role, id))
             && Writes(db, i, draws, k)
                == Writes(db, i, draws, k - 1) + (if UserSettled(before.users, username) then 0 else 1))
  {
    hide WithUser, UserSettled, TheTenant, TheRole;
  }

  // A run writes nothing exactly when the database is already seeded, and a finished run leaves
  // it seeded, whatever it started from.
  lemma WritesNothingIffSeeded(db: Db, i: Inputs, draws: Draws)
    requires Constraints(db) && Fresh(draws, db)
    ensures Seeded(After(db, i, draws, 5), i)
    ensures Writes(db, i, draws, 5) == 0 <==> Seeded(db, i)
    ensures After(db, i, draws, 5) == db <==> Seeded(db, i)
  {
    PartialRun(db, i, draws, 5);
    if Seeded(db, i) {
      SettledRun(db, i, draws, 5, 5);
      NoWrites(db, i, draws, 5);
    }
    if Writes(db, i, draws, 5) == 0 {
      Unwritten(db, i, draws, 5);
    }
    hide Settled, Stage, Constraints;
  }

  lemma {:induction false} NoWrites(db: Db, i: Inputs, draws: Draws, n: nat)
    requires Seeded(db, i) && n <= 5
    ensures Writes(db, i, draws, n) == 0
  {
    hide Settled, Stage;
    if n > 0 {
      NoWrites(db, i, draws, n - 1);
      SettledRun(db, i, draws, 5, n - 1);
    }
  }

  lemma {:induction false} Unwritten(db: Db, i: Inputs, draws: Draws, n: nat)
    requires n <= 5 && Writes(db, i, draws, n) == 0
    ensures After(db, i, draws, n) == db
  {
    hide Settled, Stage;
    if n > 0 {
      Unwritten(db, i, draws, n - 1);
      SettledIsQuiet(db, i, draws, n);
    }
  }

  // Idempotence: after a finished run, another with the same inputs writes nothing.
  lemma SecondSeedWritesNothing(db: Db, i: Inputs, first: Draws, second: Draws)
    requires Constraints(db) && Fresh(first, db) && Fresh(second, After(db, i, first, 5))
    ensures (var seeded := After(db, i, first, 5);
             Writes(seeded, i, second, 5) == 0 && After(seeded, i, second, 5) == seeded)
  {
    PartialRun(db, i, first, 5);
    WritesNothingIffSeeded(After(db, i, first, 5), i, second);
    hide After, Writes, Constraints, Settled;
  }

  // The draws of a run that stopped after j stages and of the run that came after it.
  function Mixed(first: Draws, second: Draws, j: nat): Draws {
    Draws(if j >= 1 then first.tenant else second.tenant,
          if j >= 2 then first.adminRole else second.adminRole,
          if j >= 3 then first.approverRole else second.approverRole,
          if j >= 4 then first.admin else second.admin,
          if j >= 5 then first.approver else second.approver,
          if j >= 4 then first.adminHash else second.adminHash,
          if j >= 5 then first.approverHash else second.approverHash)
  }

  // Stage k is told the same by both.
  predicate SameDraw(a: Draws, b: Draws, k: StageNo) {
    if k == 1 then a.tenant == b.tenant
    else if k == 2 then a.adminRole == b.adminRole
    else if k == 3 then a.approverRole == b.approverRole
    else if k == 4 then a.admin == b.admin && a.adminHash == b.adminHash
    else a.approver == b.approver && a.approverHash == b.approverHash
  }

  lemma SameStage(db: Db, i: Inputs, a: Draws, b: Draws, k: StageNo)
    requires SameDraw(a, b, k)
    ensures Stage(db, i, a, k) == Stage(db, i, b, k)
  {
    hide WithTenant, WithRole, WithUser;
  }

  lemma MixedDraws(first: Draws, second: Draws, j: nat, k: StageNo)
    ensures SameDraw(Mixed(first, second, j), if k <= j then first else second, k)
  {
  }

  lemma {:induction false} FirstDraws(db: Db, i: Inputs, first: Draws, second: Draws, j: nat, n: nat)
    requires n <= j <= 5
    ensures After(db, i, first, n) == After(db, i, Mixed(first, second, j), n)
    decreases n
  {
    hide Stage, Mixed, SameDraw;
    if n > 0 {
      FirstDraws(db, i, first, second, j, n - 1);
      MixedDraws(first, second, j, n);
      SameStage(After(db, i, first, n - 1), i, Mixed(first, second, j), first, n);
    }
  }

  // Recovery: a run that stopped after any stage and was started again ends where one
  // uninterrupted run would have.
  lemma {:induction false} RerunResumes(db: Db, i: Inputs, first: Draws, second: Draws, j: nat, n: nat)
    requires Constraints(db) && Fresh(first, db) && j <= 5 && n <= 5
    ensures After(After(db, i, first, j), i, second, n)
         == After(db, i, Mixed(first, second, j), if n <= j then j else n)
    decreases n
  {
    hide Constraints, Fresh, Settled, Stage, Mixed, SameDraw;
    if n <= j {
      PartialRun(db, i, first, j);
      SettledRun(After(db, i, first, j), i, second, j, n);
      FirstDraws(db, i, first, second, j, j);
    } else {
      RerunResumes(db, i, first, second, j, n - 1);
      MixedDraws(first, second, j, n);
      SameStage(After(After(db, i, first, j), i, second, n - 1), i, Mixed(first, second, j), second, n);
    }
  }

  // ---- What a run leaves alone ----

  ghost predicate TenantsKept(before: map<Id, Tenant>, after: map<Id, Tenant>) {
    forall t :: t in before ==> t in after && after[t] == before[t]
  }

  // Only the permissions of the two roles of the seeded tenant may change.
  ghost predicate RolesKept(before: map<Id, Role>, after: map<Id, Role>, tenants: map<Id, Tenant>, tenantName: string) {
    forall r :: r in before ==>
      && r in after
      && after[r] == before[r].(permissions := after[r].permissions)
      && (after[r] != before[r] ==>
            && before[r].name in {ADMIN, APPROVER}
            && before[r].tenantId in tenants && tenants[before[r].tenantId].name == tenantName)
  }

  // Only a missing role may change, and only for the two usernames: never a password hash, never
  // a tenant.
  ghost predicate UsersKept(before: map<Id, User>, after: map<Id, User>, usernames: set<string>) {
    forall u :: u in before ==>
      && u in after
      && after[u] == before[u].(roleId := after[u].roleId)
      && (after[u] != before[u] ==> before[u].roleId.None? && before[u].username in usernames)
  }

  ghost predicate Kept(before: Db, after: Db, i: Inputs) {
    && TenantsKept(before.tenants, after.tenants)
    && RolesKept(before.roles, after.roles, after.tenants, i.tenantName)
    && UsersKept(before.users, after.users, {i.adminUsername, i.approverUsername})
  }

  lemma StageKeeps(before: Db, db: Db, i: Inputs, draws: Draws, k: StageNo)
    requires Kept(before, db, i) && FreshAt(draws, db, k) && (k > 1 ==> Settled(db, i, 1))
    ensures Kept(before, Stage(db, i, draws, k), i)
  {
    hide UpToDate, Join;
  }

  // Whether or not it finishes, a run changes no other column and no unrelated row.
  lemma {:induction false} RunKeeps(db: Db, i: Inputs, draws: Draws, n: nat)
    requires Constraints(db) && Fresh(draws, db) && n <= 5
    ensures Kept(db, After(db, i, draws, n), i)
  {
    hide Constraints, Settled, Stage, Kept;
    if n == 0 {
      assert Kept(db, db, i) by { KeptSame(db, i); }
    } else {
      RunKeeps(db, i, draws, n - 1);
      PartialRun(db, i, draws, n - 1);
      StageKeeps(db, After(db, i, draws, n - 1), i, draws, n);
    }
  }

  lemma KeptSame(db: Db, i: Inputs)
    ensures Kept(db, db, i)
  {
  }
}
