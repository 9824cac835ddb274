/** What a finished seed run leaves each of its two users with, in terms of the environment it
    was started in. */
module SeedResults {
  import opened Collections
  import opened Permissions
  import opened Accounts
  import opened Seed
  import opened Access

  predicate Set(variable: Option<string>) {
    variable.Some? && variable.value != ""
  }

  ghost predicate HadRole(users: map<Id, User>, username: string) {
    exists u :: u in users && users[u].username == username && users[u].roleId.Some?
  }

  // Under this username there is a user with the role of that name, of the tenant of that name and
  // with those permissions: a user that was there, otherwise as it was, or one created with this
  // hash in that tenant.
  ghost predicate Given(before: map<Id, User>, after: Db, username: string, hash: string, tenantName: string, roleName: string,
                        permissions: List)
  {
    exists t, r, u ::
      && t in after.tenants && after.tenants[t].name == tenantName
      && r in after.roles && after.roles[r].tenantId == t && after.roles[r].name == roleName
      && multiset(Split(after.roles[r].permissions)) == multiset(permissions)
      && u in after.users && after.users[u].username == username
      && after.users[u] == if u in before then before[u].(roleId := Some(r)) else User(username, hash, t, Some(r))
  }

  // Whoever had a role before is as before.
  ghost predicate HoldersKept(before: map<Id, User>, after: map<Id, User>) {
    forall u :: u in before && before[u].roleId.Some? ==> u in after && after[u] == before[u]
  }

  lemma UserGiven(users: map<Id, User>, t: Id, username: string, hash: string, roleId: Id, newId: Id) returns (u: Id)
    requires newId !in users && !HadRole(users, username)
    ensures (var users' := WithUser(users, t, username, hash, roleId, newId);
             && u in users' && users'[u].username == username
             && users'[u] == if u in users then users[u].(roleId := Some(roleId)) else User(username, hash, t, Some(roleId)))
  {
    var found := UserNamed(users, username);
    u := if found.Some? then found.value else newId;
  }

  lemma StageLeaves(users: map<Id, User>, t: Id, username: string, hash: string, roleId: Id, newId: Id)
    requires newId !in users
    ensures (var users' := WithUser(users, t, username, hash, roleId, newId);
             && HoldersKept(users, users')
             && (forall v :: v in users && users[v].username != username ==> v in users' && users'[v] == users[v])
             && (forall v :: v in users' && v !in users ==> users'[v].username == username)
             && (forall v :: v in users ==> v in users' && users'[v].username == users[v].username))
  {
  }

  // The role that the stages before the users' settled.
  lemma RoleReady(db: Db, i: Inputs, draws: Draws, name: string, permissions: List) returns (r: Id)
    requires Constraints(db) && Fresh(draws, db) && Constant(name, permissions)
    ensures (var a3 := After(db, i, draws, 3);
             var t := TheTenant(a3.tenants, i);
             && t in a3.tenants && a3.tenants[t].name == i.tenantName
             && RoleNamed(a3.roles, t, name) == Some(r)
             && multiset(Split(a3.roles[r].permissions)) == multiset(permissions))
  {
    hide Constraints, Fresh, After, WithUser, Split, UpToDate, Grown;
    UserStages(db, i, draws);
    PartialRun(db, i, draws, 3);
    assert Settled(After(db, i, draws, 3), i, 1);
    var a3 := After(db, i, draws, 3);
    r := RoleNamed(a3.roles, TheTenant(a3.tenants, i), name).value;
    UpToDateIffSame(a3.roles[r].permissions, permissions);
  }

  // The last two stages, on the users alone.
  lemma UsersGiven(users: map<Id, User>, t: Id, first: string, firstHash: string, r1: Id, id1: Id,
                   second: string, secondHash: string, r2: Id, id2: Id) returns (u1: Id, u2: Id)
    requires id1 !in users && id2 !in users && id1 != id2
    ensures (var a := WithUser(users, t, first, firstHash, r1, id1);
             var b := WithUser(a, t, second, secondHash, r2, id2);
             && HoldersKept(users, b)
             && (!HadRole(users, first) ==>
                   && u1 in b && b[u1].username == first
                   && b[u1] == if u1 in users then users[u1].(roleId := Some(r1)) else User(first, firstHash, t, Some(r1)))
             && (!HadRole(users, second) && first != second ==>
                   && u2 in b && b[u2].username == second
                   && b[u2] == if u2 in users then users[u2].(roleId := Some(r2)) else User(second, secondHash, t, Some(r2))))
  {
    hide WithUser;
    u1, u2 := id1, id2;
    var a := WithUser(users, t, first, firstHash, r1, id1);
    FreshStays(users, t, first, firstHash, r1, id1, id2);
    StageLeaves(users, t, first, firstHash, r1, id1);
    StageLeaves(a, t, second, secondHash, r2, id2);
    if !HadRole(users, first) {
      u1 := UserGiven(users, t, first, firstHash, r1, id1);
    }
    if !HadRole(users, second) && first != second {
      assert !HadRole(a, second);
      u2 := UserGiven(a, t, second, secondHash, r2, id2);
    }
  }

  lemma FreshStays(users: map<Id, User>, t: Id, username: string, hash: string, roleId: Id, newId: Id, other: Id)
    requires other !in users && other != newId
    ensures other !in WithUser(users, t, username, hash, roleId, newId)
  {
  }

  // A finished run: the admin name has the admin role, the approver name the approver role, both of
  // the tenant asked for, unless the name had a role before, and then nothing about it changed.
  lemma RunGives(db: Db, i: Inputs, draws: Draws)
    requires Constraints(db) && Fresh(draws, db)
    ensures (var seeded := After(db, i, draws, 5);
             && HoldersKept(db.users, seeded.users)
             && (!HadRole(db.users, i.adminUsername) ==>
                   Given(db.users, seeded, i.adminUsername, draws.adminHash, i.tenantName, ADMIN, REQUESTER_PERMISSIONS))
             && (!HadRole(db.users, i.approverUsername) && i.approverUsername != i.adminUsername ==>
                   Given(db.users, seeded, i.approverUsername, draws.approverHash, i.tenantName, APPROVER, APPROVER_PERMISSIONS)))
  {
    hide Constraints, After, WithUser, RoleSettled, HadRole, HoldersKept, Given, Split, TheTenant;
    UserStages(db, i, draws);
    var a3, seeded := After(db, i, draws, 3), After(db, i, draws, 5);
    var t := TheTenant(a3.tenants, i);
    var r1 := RoleReady(db, i, draws, ADMIN, REQUESTER_PERMISSIONS);
    var r2 := RoleReady(db, i, draws, APPROVER, APPROVER_PERMISSIONS);
    var u1, u2 := UsersGiven(db.users, t, i.adminUsername, draws.adminHash, r1, draws.admin,
                             i.approverUsername, draws.approverHash, r2, draws.approver);
    if !HadRole(db.users, i.adminUsername) {
      GivenBy(db.users, seeded, i.adminUsername, draws.adminHash, i.tenantName, ADMIN, REQUESTER_PERMISSIONS, t, r1, u1);
    }
    if !HadRole(db.users, i.approverUsername) && i.approverUsername != i.adminUsername {
      GivenBy(db.users, seeded, i.approverUsername, draws.approverHash, i.tenantName, APPROVER, APPROVER_PERMISSIONS, t, r2, u2);
    }
  }

  lemma GivenBy(before: map<Id, User>, after: Db, username: string, hash: string, tenantName: string, roleName: string,
                permissions: List, t: Id, r: Id, u: Id)
    requires t in after.tenants && after.tenants[t].name == tenantName
    requires r in after.roles && after.roles[r].tenantId == t && after.roles[r].name == roleName
    requires multiset(Split(after.roles[r].permissions)) == multiset(permissions)
    requires u in after.users && after.users[u].username == username
    requires after.users[u] == if u in before then before[u].(roleId := Some(r)) else User(username, hash, t, Some(r))
    ensures Given(before, after, username, hash, tenantName, roleName, permissions)
  {
  }

  // The run that an environment starts, stated over its own variables: which are refused, and who
  // ends up with which role.
  lemma EnvGives(env: Env, db: Db, draws: Draws)
    requires Constraints(db) && Fresh(draws, db)
    ensures ReadEnv(env) == Err(AdminUnset) <==> !Set(env.adminUsername) || !Set(env.adminPassword)
    ensures ReadEnv(env) == Err(ApproverUnset) <==>
              Set(env.adminUsername) && Set(env.adminPassword) && (!Set(env.approverUsername) || !Set(env.approverPassword))
    ensures ReadEnv(env).Err? ==> ReadEnv(env).error.AdminUnset? || ReadEnv(env).error.ApproverUnset?
    ensures ReadEnv(env).Ok? ==> Outcome(env, db, draws, After(db, ReadEnv(env).value, draws, 5))
  {
    if ReadEnv(env).Ok? {
      hide After, Given, HadRole, HoldersKept, Constraints, Fresh;
      RunGives(db, ReadEnv(env).value, draws);
    }
  }

  // A user the run created logs in with the password of its own variable.
  lemma EnvLogsIn(env: Env, before: Db, draws: Draws, after: Db, matches: (string, string) -> bool)
    requires Set(env.adminUsername) && Set(env.approverUsername) && Outcome(env, before, draws, after)
    requires Constraints(after) && Set(env.adminPassword) && Set(env.approverPassword)
    requires UserNamed(before.users, env.adminUsername.value).None? && UserNamed(before.users, env.approverUsername.value).None?
    requires env.adminUsername != env.approverUsername
    ensures matches(env.adminPassword.value, draws.adminHash) <==>
              Login(after, env.adminUsername.value, env.adminPassword.value, matches).Ok?
    ensures matches(env.approverPassword.value, draws.approverHash) <==>
              Login(after, env.approverUsername.value, env.approverPassword.value, matches).Ok?
  {
    CreatedHash(before.users, after, env.adminUsername.value, draws.adminHash, TenantAsked(env), ADMIN, REQUESTER_PERMISSIONS);
    CreatedHash(before.users, after, env.approverUsername.value, draws.approverHash, TenantAsked(env), APPROVER, APPROVER_PERMISSIONS);
    hide Given, HadRole, HoldersKept;
  }

  lemma CreatedHash(before: map<Id, User>, after: Db, username: string, hash: string, tenantName: string, roleName: string,
                    permissions: List)
    requires UserNamed(before, username).None? && UsernamesUnique(after.users)
    requires !HadRole(before, username) ==> Given(before, after, username, hash, tenantName, roleName, permissions)
    ensures (var found := UserNamed(after.users, username); found.Some? && after.users[found.value].passwordHash == hash)
  {
    hide Split;
  }

  function TenantAsked(env: Env): string {
    if env.tenantName.Some? then env.tenantName.value else "default"
  }

  ghost predicate Outcome(env: Env, before: Db, draws: Draws, after: Db)
    requires Set(env.adminUsername) && Set(env.approverUsername)
  {
    var admin, approver := env.adminUsername.value, env.approverUsername.value;
    && HoldersKept(before.users, after.users)
    && (!HadRole(before.users, admin) ==>
          Given(before.users, after, admin, draws.adminHash, TenantAsked(env), ADMIN, REQUESTER_PERMISSIONS))
    && (!HadRole(before.users, approver) && approver != admin ==>
          Given(before.users, after, approver, draws.approverHash, TenantAsked(env), APPROVER, APPROVER_PERMISSIONS))
  }
}
