/** The seed script as the program runs it. Any database call may reject, before or after it
    takes effect, and then the script stops. */
module SeedScript {
  import opened Collections
  import opened Text
  import opened Permissions
  import opened Accounts
  import opened Seed
  import opened SeedResults

  /** What the next database call does; calls beyond the list work. */
  datatype Fault = Works | RejectsBefore | RejectsAfter

  class Database {
    var tenants: map<Id, Tenant>
    var roles: map<Id, Role>
    var users: map<Id, User>
    var faults: seq<Fault>

    constructor (faults: seq<Fault>)
      ensures View() == Db(map[], map[], map[])
    {
      tenants, roles, users := map[], map[], map[];
      this.faults := faults;
    }

    function View(): Db
      reads this
    {
      Db(tenants, roles, users)
    }

    method Call() returns (fault: Fault)
      modifies this`faults
    {
      fault := Works;
      if faults != [] {
        fault, faults := faults[0], faults[1..];
      }
    }
  }

  // A lookup or a save: its result, or None if the call rejected.
  datatype Reply<+T> = Resolved(value: T) | Rejected

  class Script {
    const database: Database

    constructor (database: Database)
      ensures this.database == database
    {
      this.database := database;
    }

    method FindTenant(name: string) returns (reply: Reply<Option<Id>>)
      requires NamesUnique(database.tenants)
      modifies database`faults
      ensures reply.Resolved? ==> reply.value == TenantNamed(database.tenants, name)
    {
      var fault := database.Call();
      if !fault.Works? {
        return Rejected;
      }
      if t :| t in database.tenants && database.tenants[t].name == name {
        return Resolved(Some(t));
      }
      reply := Resolved(None);
    }

    method FindRole(tenantId: Id, name: string) returns (reply: Reply<Option<Id>>)
      requires RolesUnique(database.roles)
      modifies database`faults
      ensures reply.Resolved? ==> reply.value == RoleNamed(database.roles, tenantId, name)
    {
      var fault := database.Call();
      if !fault.Works? {
        return Rejected;
      }
      if r :| r in database.roles && database.roles[r].tenantId == tenantId && database.roles[r].name == name {
        return Resolved(Some(r));
      }
      reply := Resolved(None);
    }

    method FindUser(username: string) returns (reply: Reply<Option<Id>>)
      requires UsernamesUnique(database.users)
      modifies database`faults
      ensures reply.Resolved? ==> reply.value == UserNamed(database.users, username)
    {
      var fault := database.Call();
      if !fault.Works? {
        return Rejected;
      }
      if u :| u in database.users && database.users[u].username == username {
        return Resolved(Some(u));
      }
      reply := Resolved(None);
    }

    method EnsureTenant(name: string, newId: Id) returns (tenantId: Option<Id>, wrote: bool)
      requires NamesUnique(database.tenants) && newId !in database.tenants
      modifies database`tenants, database`faults
      ensures database.tenants == old(database.tenants)
           || database.tenants == WithTenant(old(database.tenants), name, newId)
      ensures tenantId.Some? ==>
                && database.tenants == WithTenant(old(database.tenants), name, newId)
                && tenantId == TenantNamed(database.tenants, name)
      ensures wrote <==> tenantId.Some? && TenantNamed(old(database.tenants), name).None?
    {
      TenantStage(database.tenants, name, newId);
      wrote, tenantId := false, None;
      var tenant := FindTenant(name);
      if tenant.Rejected? {
        return;
      }
      if tenant.value.Some? {
        return tenant.value, false;
      }
      var fault := database.Call();
      if fault.RejectsBefore? {
        return;
      }
      database.tenants := database.tenants[newId := Tenant(name)];
      if fault.Works? {
        assert newId in database.tenants && database.tenants[newId].name == name;
        tenantId, wrote := Some(newId), true;
      }
    }

    method EnsureRole(tenantId: Id, name: string, permissions: List, newId: Id) returns (roleId: Option<Id>, wrote: bool)
      requires RolesUnique(database.roles) && newId !in database.roles
      modifies database`roles, database`faults
      ensures database.roles == old(database.roles)
           || database.roles == WithRole(old(database.roles), tenantId, name, permissions, newId)
      ensures roleId.Some? ==>
                && database.roles == WithRole(old(database.roles), tenantId, name, permissions, newId)
                && roleId == RoleNamed(database.roles, tenantId, name)
      ensures wrote <==> roleId.Some? && !RoleSettled(old(database.roles), tenantId, name, permissions)
    {
      EnsureRoleUpserts(database.roles, tenantId, name, permissions, newId);
      hide Join, Split, Storable;
      wrote, roleId := false, None;
      var role := FindRole(tenantId, name);
      if role.Rejected? {
        return;
      }
      if role.value.None? {
        var fault := database.Call();
        if !fault.RejectsBefore? {
          database.roles := database.roles[newId := Role(tenantId, name, Join(permissions))];
          if fault.Works? {
            roleId, wrote := Some(newId), true;
          }
        }
      } else if Stringify(Sorted(Split(database.roles[role.value.value].permissions))) != Stringify(Sorted(permissions)) {
        var fault := database.Call();
        if !fault.RejectsBefore? {
          database.roles := database.roles[role.value.value :=
                              database.roles[role.value.value].(permissions := Join(permissions))];
          if fault.Works? {
            roleId, wrote := role.value, true;
          }
        }
      } else {
        roleId := role.value;
      }
    }

    method EnsureUser(tenantId: Id, username: string, passwordHash: string, roleId: Id, newId: Id)
      returns (ok: bool, wrote: bool)
      requires UsernamesUnique(database.users) && newId !in database.users
      modifies database`users, database`faults
      ensures database.users == old(database.users)
           || database.users == WithUser(old(database.users), tenantId, username, passwordHash, roleId, newId)
      ensures ok ==>
                database.users == WithUser(old(database.users), tenantId, username, passwordHash, roleId, newId)
      ensures wrote <==> ok && !UserSettled(old(database.users), username)
    {
      ok, wrote := false, false;
      var existing := FindUser(username);
      if existing.Rejected? {
        return;
      }
      if existing.value.Some? {
        var id := existing.value.value;
        if database.users[id].roleId.None? {
          var fault := database.Call();
          if !fault.RejectsBefore? {
            database.users := database.users[id := database.users[id].(roleId := Some(roleId))];
            ok, wrote := fault.Works?, fault.Works?;
          }
        } else {
          ok := true;
        }
        return;
      }
      var fault := database.Call();
      if !fault.RejectsBefore? {
        database.users := database.users[newId := User(username, passwordHash, tenantId, Some(roleId))];
        ok, wrote := fault.Works?, fault.Works?;
      }
    }

    /** seed. done is the number of stages that took effect; on success the result is the number
        of rows written. */
    method Seed(env: Env, draws: Draws) returns (r: Result<nat, SeedError>, ghost done: nat)
      requires Constraints(database.View()) && Fresh(draws, database.View())
      modifies database
      ensures done <= 5
      ensures r == Err(AdminUnset) <==> !Set(env.adminUsername) || !Set(env.adminPassword)
      ensures r == Err(ApproverUnset) <==>
                Set(env.adminUsername) && Set(env.adminPassword) && (!Set(env.approverUsername) || !Set(env.approverPassword))
      ensures r == Err(AdminUnset) || r == Err(ApproverUnset) ==> database.View() == old(database.View())
      ensures r.Ok? ==> Outcome(env, old(database.View()), draws, database.View())
      ensures ReadEnv(env).Ok? ==>
                && database.View() == After(old(database.View()), ReadEnv(env).value, draws, done)
                && (r.Ok? ==> done == 5 && r.value == Writes(old(database.View()), ReadEnv(env).value, draws, 5))
                && (r.Err? ==> r.error == DatabaseFailed)
    {
      done := 0;
      if env.adminUsername.None? || env.adminUsername.value == "" || env.adminPassword.None? || env.adminPassword.value == "" {
        return Err(AdminUnset), 0;
      }
      if env.approverUsername.None? || env.approverUsername.value == ""
         || env.approverPassword.None? || env.approverPassword.value == "" {
        return Err(ApproverUnset), 0;
      }
      var tenantName := if env.tenantName.Some? then env.tenantName.value else "default";
      var i := Inputs(tenantName, env.adminUsername.value, env.adminPassword.value,
                      env.approverUsername.value, env.approverPassword.value);
      EnvGives(env, database.View(), draws);
      hide Constraints, Fresh, After, Writes, Outcome;
      r, done := Populate(i, draws);
    }

    method TenantStep(i: Inputs, draws: Draws, ghost db: Db) returns (tenantId: Option<Id>, writes: nat)
      requires Constraints(db) && Fresh(draws, db) && database.View() == db
      modifies database
      ensures database.View() == After(db, i, draws, 0) || database.View() == After(db, i, draws, 1)
      ensures tenantId.Some? ==>
                && database.View() == After(db, i, draws, 1)
                && tenantId.value == TheTenant(database.tenants, i) && writes == Writes(db, i, draws, 1)
    {
      var wrote;
      hide NamesUnique, RolesUnique, UsernamesUnique, WithTenant;
      assert After(db, i, draws, 0) == db && Writes(db, i, draws, 0) == 0;
      tenantId, wrote := EnsureTenant(i.tenantName, draws.tenant);
      writes := if wrote then 1 else 0;
    }

    // One role, the second or third stage.
    method RoleStep(i: Inputs, draws: Draws, tenantId: Id, name: string, permissions: List, newId: Id,
                    ghost db: Db, ghost k: StageNo)
      returns (roleId: Option<Id>, writes: nat)
      requires Constraints(db) && Fresh(draws, db) && database.View() == After(db, i, draws, k - 1)
      requires k == 2 || k == 3
      requires tenantId == TheTenant(database.tenants, i)
      requires (name, permissions, newId) == if k == 2 then (ADMIN, REQUESTER_PERMISSIONS, draws.adminRole)
                                             else (APPROVER, APPROVER_PERMISSIONS, draws.approverRole)
      modifies database
      ensures database.View() == After(db, i, draws, k - 1) || database.View() == After(db, i, draws, k)
      ensures roleId.Some? ==>
                && database.View() == After(db, i, draws, k)
                && database.tenants == old(database.tenants) && roleId.value == TheRole(database.View(), i, name)
                && Writes(db, i, draws, k) == Writes(db, i, draws, k - 1) + writes
                && (k == 3 ==> TheRole(database.View(), i, ADMIN) == TheRole(old(database.View()), i, ADMIN))
    {
      StageReady(db, i, draws, k);
      hide Constraints, Fresh, RolesUnique, WithRole, UpToDate;
      if k == 3 {
        OtherRole(database.roles, tenantId, name, permissions, newId, tenantId, ADMIN);
      }
      var wrote;
      roleId, wrote := EnsureRole(tenantId, name, permissions, newId);
      writes := if wrote then 1 else 0;
    }

    // One user, the fourth or fifth stage.
    method UserStep(i: Inputs, draws: Draws, tenantId: Id, username: string, passwordHash: string, roleId: Id, newId: Id,
                    ghost db: Db, ghost k: StageNo)
      returns (ok: bool, writes: nat)
      requires Constraints(db) && Fresh(draws, db) && database.View() == After(db, i, draws, k - 1)
      requires k == 4 || k == 5
      requires tenantId == TheTenant(database.tenants, i)
      requires (username, passwordHash, newId) == if k == 4 then (i.adminUsername, draws.adminHash, draws.admin)
                                                  else (i.approverUsername, draws.approverHash, draws.approver)
      requires roleId == TheRole(database.View(), i, if k == 4 then ADMIN else APPROVER)
      modifies database
      ensures database.View() == After(db, i, draws, k - 1) || database.View() == After(db, i, draws, k)
      ensures ok ==>
                && database.View() == After(db, i, draws, k)
                && database.tenants == old(database.tenants)
                && TheRole(database.View(), i, APPROVER) == TheRole(old(database.View()), i, APPROVER)
                && Writes(db, i, draws, k) == Writes(db, i, draws, k - 1) + writes
    {
      hide Constraints, Fresh, UsernamesUnique, WithUser, UserSettled, After, Writes, TheTenant;
      StageReady(db, i, draws, k);
      UserStageIs(db, i, draws, k);
      var wrote;
      ok, wrote := EnsureUser(tenantId, username, passwordHash, roleId, newId);
      writes := if wrote then 1 else 0;
    }

    // The third to fifth stage.
    method Finish(i: Inputs, draws: Draws, tenantId: Id, adminRole: Id, ghost db: Db)
      returns (ok: bool, writes: nat, ghost done: nat)
      requires Constraints(db) && Fresh(draws, db) && database.View() == After(db, i, draws, 2)
      requires tenantId == TheTenant(database.tenants, i) && adminRole == TheRole(database.View(), i, ADMIN)
      modifies database
      ensures 2 <= done <= 5 && database.View() == After(db, i, draws, done)
      ensures ok ==> done == 5 && Writes(db, i, draws, 5) == Writes(db, i, draws, 2) + writes
    {
      hide Constraints, Fresh, After, Writes, TheTenant, TheRole, Database.View;
      var approverRole, w3, w4, w5;
      approverRole, w3 := RoleStep(i, draws, tenantId, APPROVER, APPROVER_PERMISSIONS, draws.approverRole, db, 3);
      if approverRole.None? {
        return false, 0, if database.View() == After(db, i, draws, 2) then 2 else 3;
      }
      ok, w4 := UserStep(i, draws, tenantId, i.adminUsername, draws.adminHash, adminRole, draws.admin, db, 4);
      if !ok {
        return false, 0, if database.View() == After(db, i, draws, 3) then 3 else 4;
      }
      ok, w5 := UserStep(i, draws, tenantId, i.approverUsername, draws.approverHash, approverRole.value, draws.approver, db, 5);
      writes := w3 + w4 + w5;
      done := if ok then 5 else if database.View() == After(db, i, draws, 4) then 4 else 5;
    }

    // The tenant, the two roles, the two users.
    method Populate(i: Inputs, draws: Draws) returns (r: Result<nat, SeedError>, ghost done: nat)
      requires Constraints(database.View()) && Fresh(draws, database.View())
      modifies database
      ensures done <= 5 && database.View() == After(old(database.View()), i, draws, done)
      ensures r.Ok? ==> done == 5 && r.value == Writes(old(database.View()), i, draws, 5)
      ensures r.Err? ==> r.error == DatabaseFailed
    {
      ghost var db := database.View();
      hide Constraints, Fresh, After, Writes, TheTenant, TheRole, Database.View;
      r := Err(DatabaseFailed);
      var tenantId, adminRole, w1, w2;
      tenantId, w1 := TenantStep(i, draws, db);
      if tenantId.None? {
        done := if database.View() == After(db, i, draws, 0) then 0 else 1;
        return;
      }
      adminRole, w2 := RoleStep(i, draws, tenantId.value, ADMIN, REQUESTER_PERMISSIONS, draws.adminRole, db, 2);
      if adminRole.None? {
        done := if database.View() == After(db, i, draws, 1) then 1 else 2;
        return;
      }
      var ok, w;
      ok, w, done := Finish(i, draws, tenantId.value, adminRole.value, db);
      if ok {
        r := Ok(w1 + w2 + w);
      }
    }
  }
}
