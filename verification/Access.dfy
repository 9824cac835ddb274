/** Login, the check of the token, and the permission guard, over databases that change through
    the services and the seed script. */
module Access {
  import opened Collections
  import opened Text
  import opened Permissions
  import opened Accounts
  import opened Seed

  // Tokens issued before there were tenants carry no tenant.
  datatype Claims = Claims(sub: Id, username: string, tenantId: Option<Id>)

  datatype RequestUser = RequestUser(userId: Id, username: string, tenantId: Id)

  datatype Refusal =
    | InvalidCredentials
    | MissingTenantClaim
    | NotAuthenticated
    | NoRoleAssigned
    | RoleNotValidForTenant
    | MissingPermission

  // matches is bcrypt.compare of a password with a hash.
  ghost function Login(db: Db, username: string, password: string, matches: (string, string) -> bool)
    : Result<Claims, Refusal>
  {
    var found := UserNamed(db.users, username);
    if found.None? || !matches(password, db.users[found.value].passwordHash) then Err(InvalidCredentials)
    else Ok(Claims(found.value, db.users[found.value].username, Some(db.users[found.value].tenantId)))
  }

  // Only a token with a tenant becomes a user, and it is that tenant's.
  function Validate(claims: Claims): (r: Result<RequestUser, Refusal>)
    ensures r.Ok? <==> claims.tenantId.Some? && claims.tenantId != Some("")
    ensures r.Ok? ==> Some(r.value.tenantId) == claims.tenantId && r.value.userId == claims.sub
  {
    if claims.tenantId.None? || claims.tenantId.value == "" then Err(MissingTenantClaim)
    else Ok(RequestUser(claims.sub, claims.username, claims.tenantId.value))
  }

  predicate HasPermission(role: Role, permission: Text) {
    permission in Split(role.permissions)
  }

  // canActivate: Ok, or the message of the exception it throws.
  function CanActivate(db: Db, required: Option<Text>, requestUser: Option<RequestUser>): Result<(), Refusal> {
    if required.None? || required.value == [] then Ok(())
    else if requestUser.None? || requestUser.value.userId == "" then Err(NotAuthenticated)
    else
      var userId := requestUser.value.userId;
      if userId !in db.users || db.users[userId].roleId.None? || db.users[userId].roleId.value == ""
      then Err(NoRoleAssigned)
      else
        var roleId := db.users[userId].roleId.value;
        if roleId !in db.roles || db.roles[roleId].tenantId != requestUser.value.tenantId
        then Err(RoleNotValidForTenant)
        else if !HasPermission(db.roles[roleId], required.value) then Err(MissingPermission)
        else Ok(())
  }

  // What a request with this token gets at a route that requires the permission.
  function Guarded(db: Db, claims: Claims, permission: Text): Result<(), Refusal> {
    var user := Validate(claims);
    if user.Err? then Err(user.error) else CanActivate(db, Some(permission), Some(user.value))
  }

  // A login succeeds exactly for a username of some user and a password that matches that user's
  // hash; the token is that user's, of its own tenant, and every refusal is the same.
  lemma LoginIff(db: Db, username: string, password: string, matches: (string, string) -> bool)
    requires Constraints(db)
    ensures Login(db, username, password, matches).Ok? <==>
              exists u :: u in db.users && db.users[u].username == username && matches(password, db.users[u].passwordHash)
    ensures Login(db, username, password, matches).Ok? ==>
              (var token := Login(db, username, password, matches).value;
               && token.sub in db.users && db.users[token.sub].username == username
               && matches(password, db.users[token.sub].passwordHash)
               && token.username == username && token.tenantId == Some(db.users[token.sub].tenantId))
    ensures Login(db, username, password, matches).Err? ==> Login(db, username, password, matches).error == InvalidCredentials
  {
    hide NamesUnique, RolesUnique, RoleReferences;
  }

  // The role the guard finds for a user of a request: of the user's own tenant, as the token says.
  predicate HasRoleHere(db: Db, requestUser: RequestUser, roleId: Id) {
    && requestUser.userId in db.users && db.users[requestUser.userId].roleId == Some(roleId) && roleId != ""
    && roleId in db.roles && db.roles[roleId].tenantId == requestUser.tenantId
  }

  // A route without a permission is open to every request, with or without a user. Any other is
  // open exactly to an authenticated user whose role is of the token's tenant and lists it.
  lemma CanActivateIff(db: Db, required: Option<Text>, requestUser: Option<RequestUser>)
    ensures CanActivate(db, required, requestUser).Ok? <==>
              || required.None? || required == Some([])
              || (requestUser.Some? && requestUser.value.userId != ""
                  && exists r :: HasRoleHere(db, requestUser.value, r) && required.value in Split(db.roles[r].permissions))
    ensures CanActivate(db, required, requestUser) == Err(NotAuthenticated) <==>
              required.Some? && required != Some([]) && (requestUser.None? || requestUser.value.userId == "")
    ensures CanActivate(db, required, requestUser) == Err(MissingPermission) <==>
              && required.Some? && required != Some([]) && requestUser.Some? && requestUser.value.userId != ""
              && exists r :: HasRoleHere(db, requestUser.value, r) && required.value !in Split(db.roles[r].permissions)
  {
    hide Split;
    if requestUser.Some? && requestUser.value.userId in db.users && db.users[requestUser.value.userId].roleId.Some? {
      var r := db.users[requestUser.value.userId].roleId.value;
      assert forall x :: HasRoleHere(db, requestUser.value, x) ==> x == r;
      assert r in db.roles && r != "" && db.roles[r].tenantId == requestUser.value.tenantId ==> HasRoleHere(db, requestUser.value, r);
    }
  }

  // ---- How the database changes ----

  /** UsersService.create, RolesService.create, and a seed run that finished or stopped early. A
      write that breaks a constraint is refused by the database and changes nothing. */
  datatype Event =
    | UserCreated(id: Id, username: string, passwordHash: string, tenantId: Id)
    | RoleCreated(id: Id, tenantId: Id, name: string, permissions: List)
    | SeedRan(inputs: Inputs, draws: Draws, stages: nat)

  ghost predicate Possible(db: Db, e: Event) {
    match e
    case UserCreated(id, username, _, tenantId) =>
      id !in db.users && id != "" && tenantId in db.tenants && UserNamed(db.users, username).None?
    case RoleCreated(id, tenantId, name, _) =>
      id !in db.roles && id != "" && tenantId in db.tenants && RoleNamed(db.roles, tenantId, name).None?
    case SeedRan(_, draws, stages) => Fresh(draws, db) && stages <= 5
  }

  ghost function Changed(db: Db, e: Event): Db
    requires Possible(db, e)
  {
    match e
    case UserCreated(id, username, hash, tenantId) =>
      db.(users := db.users[id := User(username, hash, tenantId, None)])
    case RoleCreated(id, tenantId, name, permissions) =>
      db.(roles := db.roles[id := Role(tenantId, name, Join(permissions))])
    case SeedRan(i, draws, stages) => After(db, i, draws, stages)
  }

  ghost predicate History(db: Db, events: seq<Event>, db': Db)
    decreases |events|
  {
    if events == [] then db == db'
    else Possible(db, events[0]) && History(Changed(db, events[0]), events[1..], db')
  }

  // Nobody's tenant changes and nobody loses a role.
  ghost predicate Settles(before: map<Id, User>, after: map<Id, User>) {
    forall u :: u in before ==>
      && u in after && after[u].tenantId == before[u].tenantId && after[u].username == before[u].username
      && (before[u].roleId.Some? ==> after[u].roleId == before[u].roleId)
  }

  lemma CreateKeeps(db: Db, e: Event)
    requires Constraints(db) && Possible(db, e) && !e.SeedRan?
    ensures Constraints(Changed(db, e)) && Settles(db.users, Changed(db, e).users)
  {
    if e.UserCreated? {
      hide NamesUnique, RolesUnique, RoleReferences;
    } else {
      hide NamesUnique, UsernamesUnique, Join;
    }
  }

  lemma KeptSettles(before: Db, after: Db, i: Inputs)
    requires Kept(before, after, i)
    ensures Settles(before.users, after.users)
  {
    hide TenantsKept, RolesKept;
  }

  lemma EventKeeps(db: Db, e: Event)
    requires Constraints(db) && Possible(db, e)
    ensures Constraints(Changed(db, e)) && Settles(db.users, Changed(db, e).users)
  {
    hide Constraints, SettledTo, After, Fresh, Kept, Settles;
    if e.SeedRan? {
      PartialRun(db, e.inputs, e.draws, e.stages);
      RunKeeps(db, e.inputs, e.draws, e.stages);
      KeptSettles(db, After(db, e.inputs, e.draws, e.stages), e.inputs);
    } else {
      CreateKeeps(db, e);
    }
  }

  lemma {:induction false} HistoryKeeps(db: Db, events: seq<Event>, db': Db)
    requires Constraints(db) && History(db, events, db')
    ensures Constraints(db') && Settles(db.users, db'.users)
    decreases |events|
  {
    hide Constraints, Possible, Changed;
    if events != [] {
      EventKeeps(db, events[0]);
      HistoryKeeps(Changed(db, events[0]), events[1..], db');
    }
  }

  // A user that was just created logs in with a password that matches its hash, as itself and in
  // the tenant it was created in, and is refused every permission until it is given a role.
  lemma CreatedUserLogsIn(db: Db, id: Id, username: string, hash: string, tenantId: Id, password: string,
                          matches: (string, string) -> bool, permission: Text)
    requires Constraints(db) && Possible(db, UserCreated(id, username, hash, tenantId)) && permission != []
    ensures (var db' := Changed(db, UserCreated(id, username, hash, tenantId));
             && (matches(password, hash) ==> Login(db', username, password, matches) == Ok(Claims(id, username, Some(tenantId))))
             && (!matches(password, hash) ==> Login(db', username, password, matches) == Err(InvalidCredentials))
             && Guarded(db', Claims(id, username, Some(tenantId)), permission) == Err(NoRoleAssigned))
  {
    var db' := Changed(db, UserCreated(id, username, hash, tenantId));
    assert id in db'.users && db'.users[id].username == username;
    assert tenantId != "";
    hide NamesUnique, RolesUnique, RoleReferences;
  }

  // ---- Main results ----

  // A token got by logging in is granted a permission, at any later time, exactly if its user's
  // one role at that time belongs to the user's own tenant and lists the permission.
  lemma GrantedIff(db: Db, username: string, password: string, matches: (string, string) -> bool,
                   events: seq<Event>, db': Db, permission: Text)
    requires Constraints(db) && History(db, events, db') && permission != []
    requires Login(db, username, password, matches).Ok?
    ensures (var token := Login(db, username, password, matches).value;
             && token.sub in db'.users && db'.users[token.sub].username == username
             && (var user := db'.users[token.sub];
                 Guarded(db', token, permission).Ok?
                 <==> user.roleId.Some? && user.roleId.value in db'.roles
                      && db'.roles[user.roleId.value].tenantId == user.tenantId
                      && permission in Split(db'.roles[user.roleId.value].permissions)))
  {
    HistoryKeeps(db, events, db');
    var token := Login(db, username, password, matches).value;
    assert db'.users[token.sub].tenantId == db.users[token.sub].tenantId;
    assert token.tenantId.value != "";
    hide History, Split;
  }

  // Holding, whatever happens later: u keeps the role r, of its own tenant and of that name,
  // with those permissions.
  ghost predicate Holds(db: Db, u: Id, r: Id, name: string, permissions: List) {
    && u in db.users && db.users[u].roleId == Some(r)
    && r in db.roles && db.roles[r].tenantId == db.users[u].tenantId && db.roles[r].name == name
    && multiset(Split(db.roles[r].permissions)) == multiset(permissions)
  }

  predicate Constant(name: string, permissions: List) {
    (name == ADMIN && permissions == REQUESTER_PERMISSIONS) || (name == APPROVER && permissions == APPROVER_PERMISSIONS)
  }

  lemma RoleStageHolds(roles: map<Id, Role>, t: Id, name: string, permissions: List, newId: Id,
                       r: Id, held: string, list: List)
    requires RolesUnique(roles) && newId !in roles && r in roles && roles[r].name == held
    requires held == name ==> permissions == list
    requires multiset(Split(roles[r].permissions)) == multiset(list)
    ensures (var roles' := WithRole(roles, t, name, permissions, newId); r in roles' && roles'[r] == roles[r])
  {
    EnsureRoleUpserts(roles, t, name, permissions, newId);
    hide Split, Join, Storable, UpToDate;
  }

  lemma UserStageHolds(users: map<Id, User>, t: Id, username: string, hash: string, roleId: Id, newId: Id, u: Id)
    requires newId !in users && u in users && users[u].roleId.Some?
    ensures (var users' := WithUser(users, t, username, hash, roleId, newId); u in users' && users'[u] == users[u])
  {
  }

  lemma StageHolds(db: Db, i: Inputs, draws: Draws, k: StageNo, u: Id, r: Id, name: string, permissions: List)
    requires RolesUnique(db.roles) && FreshAt(draws, db, k)
    requires Holds(db, u, r, name, permissions) && Constant(name, permissions)
    ensures Holds(Stage(db, i, draws, k), u, r, name, permissions)
  {
    hide WithRole, WithTenant, WithUser, Split, RolesUnique, TheTenant, TheRole;
    var t := TheTenant(db.tenants, i);
    if k == 2 {
      RoleStageHolds(db.roles, t, ADMIN, REQUESTER_PERMISSIONS, draws.adminRole, r, name, permissions);
    } else if k == 3 {
      RoleStageHolds(db.roles, t, APPROVER, APPROVER_PERMISSIONS, draws.approverRole, r, name, permissions);
    } else if k == 4 {
      UserStageHolds(db.users, t, i.adminUsername, draws.adminHash, TheRole(db, i, ADMIN), draws.admin, u);
    } else if k == 5 {
      UserStageHolds(db.users, t, i.approverUsername, draws.approverHash, TheRole(db, i, APPROVER), draws.approver, u);
    }
  }

  lemma {:induction false} SeedHolds(db: Db, i: Inputs, draws: Draws, n: nat, u: Id, r: Id, name: string, permissions: List)
    requires Constraints(db) && Fresh(draws, db) && n <= 5
    requires Holds(db, u, r, name, permissions) && Constant(name, permissions)
    ensures Holds(After(db, i, draws, n), u, r, name, permissions)
  {
    hide Constraints, Fresh, Holds, Stage, Constant;
    if n > 0 {
      SeedHolds(db, i, draws, n - 1, u, r, name, permissions);
      StageReady(db, i, draws, n);
      StageHolds(After(db, i, draws, n - 1), i, draws, n, u, r, name, permissions);
    }
  }

  lemma {:induction false} HistoryHolds(db: Db, events: seq<Event>, db': Db, u: Id, r: Id, name: string, permissions: List)
    requires Constraints(db) && History(db, events, db')
    requires Holds(db, u, r, name, permissions) && Constant(name, permissions)
    ensures Holds(db', u, r, name, permissions)
    decreases |events|
  {
    hide Constraints, Holds, Constant, After, Fresh;
    if events != [] {
      EventKeeps(db, events[0]);
      EventHolds(db, events[0], u, r, name, permissions);
      HistoryHolds(Changed(db, events[0]), events[1..], db', u, r, name, permissions);
    }
  }

  lemma EventHolds(db: Db, e: Event, u: Id, r: Id, name: string, permissions: List)
    requires Constraints(db) && Possible(db, e)
    requires Holds(db, u, r, name, permissions) && Constant(name, permissions)
    ensures Holds(Changed(db, e), u, r, name, permissions)
  {
    hide Constraints, Constant, After, Fresh, Split;
    if e.SeedRan? {
      hide Holds;
      SeedHolds(db, e.inputs, e.draws, e.stages, u, r, name, permissions);
    }
  }

  lemma {:induction false} UsersUntouched(db: Db, i: Inputs, draws: Draws, n: nat)
    requires n <= 3
    ensures After(db, i, draws, n).users == db.users
  {
    if n > 0 {
      UsersUntouched(db, i, draws, n - 1);
    }
    hide WithTenant, WithRole;
  }

  // A user stage that creates its user gives it the role that an earlier stage settled.
  lemma CreatedHolds(db: Db, t: Id, username: string, hash: string, newId: Id, name: string, permissions: List, r: Id)
    requires UsernamesUnique(db.users) && UserNamed(db.users, username).None? && newId !in db.users
    requires RoleSettled(db.roles, t, name, permissions) && RoleNamed(db.roles, t, name) == Some(r)
    ensures (var db' := db.(users := WithUser(db.users, t, username, hash, r, newId));
             && Holds(db', newId, r, name, permissions)
             && UserNamed(db'.users, username) == Some(newId)
             && newId in db'.users && db'.users[newId].passwordHash == hash)
  {
    UpToDateIffSame(db.roles[r].permissions, permissions);
    hide UpToDate, Split;
    var users' := WithUser(db.users, t, username, hash, r, newId);
    assert newId in users' && users'[newId].username == username;
  }

  // The last two stages write to the users only.
  lemma UserStages(db: Db, i: Inputs, draws: Draws)
    requires Constraints(db) && Fresh(draws, db)
    ensures (var a3, a4, a5 := After(db, i, draws, 3), After(db, i, draws, 4), After(db, i, draws, 5);
             var t, admin, approver := TheTenant(a3.tenants, i), RoleNamed(a3.roles, TheTenant(a3.tenants, i), ADMIN),
                                       RoleNamed(a3.roles, TheTenant(a3.tenants, i), APPROVER);
             && admin.Some? && approver.Some?
             && RoleSettled(a3.roles, t, ADMIN, REQUESTER_PERMISSIONS)
             && RoleSettled(a3.roles, t, APPROVER, APPROVER_PERMISSIONS)
             && a3.users == db.users
             && a4 == a3.(users := WithUser(a3.users, t, i.adminUsername, draws.adminHash, admin.value, draws.admin))
             && a5 == a4.(users := WithUser(a4.users, t, i.approverUsername, draws.approverHash, approver.value, draws.approver)))
  {
    UsersUntouched(db, i, draws, 3);
    PartialRun(db, i, draws, 3);
    assert Settled(After(db, i, draws, 3), i, 2) && Settled(After(db, i, draws, 3), i, 3);
    hide Constraints, Fresh, WithUser, UpToDate, Grown, SettledTo;
  }

  // A finished run that had to create the two users gave each of them its own role.
  lemma SeededHold(db: Db, i: Inputs, draws: Draws)
    returns (admin: Id, approver: Id)
    requires Constraints(db) && Fresh(draws, db) && i.adminUsername != i.approverUsername
    requires UserNamed(db.users, i.adminUsername).None? && UserNamed(db.users, i.approverUsername).None?
    ensures (var db' := After(db, i, draws, 5);
             && Constraints(db')
             && UserNamed(db'.users, i.adminUsername) == Some(draws.admin)
             && UserNamed(db'.users, i.approverUsername) == Some(draws.approver)
             && Holds(db', draws.admin, admin, ADMIN, REQUESTER_PERMISSIONS)
             && Holds(db', draws.approver, approver, APPROVER, APPROVER_PERMISSIONS)
             && draws.admin in db'.users && db'.users[draws.admin].passwordHash == draws.adminHash
             && draws.approver in db'.users && db'.users[draws.approver].passwordHash == draws.approverHash)
  {
    var a3, a4, db' := After(db, i, draws, 3), After(db, i, draws, 4), After(db, i, draws, 5);
    var t := TheTenant(a3.tenants, i);
    hide Constraints, Holds, UsernamesUnique, RolesUnique, RoleSettled, SettledTo, Grown, TheTenant, After, Stage, WithUser;
    UserStages(db, i, draws);
    StageReady(db, i, draws, 4);
    StageReady(db, i, draws, 5);
    PartialRun(db, i, draws, 5);
    admin, approver := RoleNamed(a3.roles, t, ADMIN).value, RoleNamed(a3.roles, t, APPROVER).value;
    CreatedHolds(a3, t, i.adminUsername, draws.adminHash, draws.admin, ADMIN, REQUESTER_PERMISSIONS, admin);
    OthersUnnamed(a3.users, t, i.adminUsername, draws.adminHash, admin, draws.admin, i.approverUsername);
    CreatedHolds(a4, t, i.approverUsername, draws.approverHash, draws.approver, APPROVER, APPROVER_PERMISSIONS, approver);
    SeedHoldsStep(a4, db', t, i.approverUsername, draws.approverHash, approver, draws.approver, draws.admin, admin, i.adminUsername);
  }

  lemma OthersUnnamed(users: map<Id, User>, t: Id, username: string, hash: string, roleId: Id, newId: Id, other: string)
    requires UserNamed(users, username).None? && UserNamed(users, other).None? && username != other
    ensures UserNamed(WithUser(users, t, username, hash, roleId, newId), other).None?
  {
  }

  lemma SeedHoldsStep(db: Db, db': Db, t: Id, username: string, hash: string, roleId: Id, newId: Id,
                      u: Id, r: Id, held: string)
    requires db' == db.(users := WithUser(db.users, t, username, hash, roleId, newId))
    requires newId !in db.users && UsernamesUnique(db.users) && UserNamed(db.users, username).None? && held != username
    requires Holds(db, u, r, ADMIN, REQUESTER_PERMISSIONS) && UserNamed(db.users, held) == Some(u)
    ensures Holds(db', u, r, ADMIN, REQUESTER_PERMISSIONS) && UserNamed(db'.users, held) == Some(u)
    ensures u in db'.users && db'.users[u] == db.users[u]
  {
    hide Split;
  }

  // Each of them can log in with its own password, into the tenant of its role.
  lemma SeededUsersLogIn(db: Db, i: Inputs, draws: Draws, matches: (string, string) -> bool)
    requires Constraints(db) && Fresh(draws, db) && i.adminUsername != i.approverUsername
    requires UserNamed(db.users, i.adminUsername).None? && UserNamed(db.users, i.approverUsername).None?
    requires matches(i.adminPassword, draws.adminHash) && matches(i.approverPassword, draws.approverHash)
    ensures (var seeded := After(db, i, draws, 5);
             var admin, approver := Login(seeded, i.adminUsername, i.adminPassword, matches),
                                    Login(seeded, i.approverUsername, i.approverPassword, matches);
             && admin.Ok? && approver.Ok?
             && admin.value.sub == draws.admin && approver.value.sub == draws.approver
             && (exists r :: r in seeded.roles && Some(seeded.roles[r].tenantId) == admin.value.tenantId && seeded.roles[r].name == ADMIN)
             && (exists r :: r in seeded.roles && Some(seeded.roles[r].tenantId) == approver.value.tenantId && seeded.roles[r].name == APPROVER))
  {
    hide Constraints, Fresh, After;
    var admin, approver := SeededHold(db, i, draws);
    var roles := After(db, i, draws, 5).roles;
    assert admin in roles && roles[admin].name == ADMIN;
    assert approver in roles && roles[approver].name == APPROVER;
  }

  // Who holds a role of the seed script is granted what the script lists for it and nothing
  // else, with any token of the user's own tenant.
  lemma HolderGranted(db: Db, u: Id, r: Id, name: string, permissions: List, token: Claims, permission: Text)
    requires Constraints(db) && Holds(db, u, r, name, permissions) && permission != []
    requires token.sub == u && token.tenantId == Some(db.users[u].tenantId)
    ensures Guarded(db, token, permission).Ok? <==> permission in permissions
  {
    var stored := Split(db.roles[r].permissions);
    assert permission in stored <==> permission in multiset(stored);
    assert permission in permissions <==> permission in multiset(permissions);
    hide Split, NamesUnique, RolesUnique, UsernamesUnique;
  }

  // Separation of duties: after a finished run that created two users, and after anything that
  // happens later, no token of either is granted both to create and to approve.
  lemma NobodyHoldsBoth(db: Db, i: Inputs, draws: Draws, events: seq<Event>, db': Db,
                        username: string, password: string, matches: (string, string) -> bool, permission: Text)
    requires Constraints(db) && Fresh(draws, db) && i.adminUsername != i.approverUsername
    requires UserNamed(db.users, i.adminUsername).None? && UserNamed(db.users, i.approverUsername).None?
    requires History(After(db, i, draws, 5), events, db') && permission != []
    requires Login(db', username, password, matches).Ok?
    ensures (var token := Login(db', username, password, matches).value;
             && (username == i.adminUsername ==> (Guarded(db', token, permission).Ok? <==> permission in REQUESTER_PERMISSIONS))
             && (username == i.approverUsername ==> (Guarded(db', token, permission).Ok? <==> permission in APPROVER_PERMISSIONS))
             && (username in {i.adminUsername, i.approverUsername} ==>
                   Guarded(db', token, PO_CREATE).Err? || Guarded(db', token, PO_APPROVE).Err?))
  {
    var seeded, token := After(db, i, draws, 5), Login(db', username, password, matches).value;
    hide Constraints, History, After, Fresh, Holds, Guarded;
    var admin, approver := SeededHold(db, i, draws);
    HistoryKeeps(seeded, events, db');
    HistoryHolds(seeded, events, db', draws.admin, admin, ADMIN, REQUESTER_PERMISSIONS);
    HistoryHolds(seeded, events, db', draws.approver, approver, APPROVER, APPROVER_PERMISSIONS);
    ConstantsStorable();
    if username == i.adminUsername {
      SameUser(db', seeded, username, draws.admin);
      forall p | p in {permission, PO_CREATE, PO_APPROVE} ensures Guarded(db', token, p).Ok? <==> p in REQUESTER_PERMISSIONS {
        HolderGranted(db', draws.admin, admin, ADMIN, REQUESTER_PERMISSIONS, token, p);
      }
    }
    if username == i.approverUsername {
      SameUser(db', seeded, username, draws.approver);
      forall p | p in {permission, PO_CREATE, PO_APPROVE} ensures Guarded(db', token, p).Ok? <==> p in APPROVER_PERMISSIONS {
        HolderGranted(db', draws.approver, approver, APPROVER, APPROVER_PERMISSIONS, token, p);
      }
    }
  }

  lemma SameUser(db': Db, seeded: Db, username: string, u: Id)
    requires Constraints(db') && Settles(seeded.users, db'.users) && UserNamed(seeded.users, username) == Some(u)
    ensures UserNamed(db'.users, username) == Some(u)
  {
    assert u in db'.users && db'.users[u].username == username;
    hide NamesUnique, RolesUnique;
  }

  // u has a role of a tenant that is not its own.
  ghost predicate Abroad(db: Db, u: Id) {
    && u in db.users && db.users[u].roleId.Some? && db.users[u].roleId.value in db.roles
    && db.roles[db.users[u].roleId.value].tenantId != db.users[u].tenantId
  }

  lemma EventAbroad(db: Db, e: Event, u: Id)
    requires Constraints(db) && Possible(db, e) && Abroad(db, u)
    ensures Abroad(Changed(db, e), u)
  {
    hide Constraints, After, Fresh, Join, TenantsKept;
    if e.SeedRan? {
      RunKeeps(db, e.inputs, e.draws, e.stages);
    }
  }

  lemma {:induction false} HistoryAbroad(db: Db, events: seq<Event>, db': Db, u: Id)
    requires Constraints(db) && History(db, events, db') && Abroad(db, u)
    ensures Abroad(db', u)
    decreases |events|
  {
    hide Constraints, Possible, Changed, Abroad;
    if events != [] {
      EventKeeps(db, events[0]);
      EventAbroad(db, events[0], u);
      HistoryAbroad(Changed(db, events[0]), events[1..], db', u);
    }
  }

  lemma TenantApart(db: Db, i: Inputs, draws: Draws, tenantId: Id)
    requires Constraints(db) && Fresh(draws, db)
    requires tenantId in db.tenants && db.tenants[tenantId].name != i.tenantName
    ensures TheTenant(After(db, i, draws, 3).tenants, i) != tenantId
  {
    var a3 := After(db, i, draws, 3);
    RunKeeps(db, i, draws, 3);
    PartialRun(db, i, draws, 3);
    assert Settled(a3, i, 1);
    hide After, Constraints, Fresh, SettledTo, Grown, RolesKept, UsersKept;
  }

  lemma GivenRole(users: map<Id, User>, t: Id, username: string, hash: string, roleId: Id, newId: Id, u: Id)
    requires newId !in users && UserNamed(users, username) == Some(u) && users[u].roleId.None?
    ensures (var users' := WithUser(users, t, username, hash, roleId, newId);
             u in users' && users'[u] == users[u].(roleId := Some(roleId)))
  {
  }

  // The script gives its admin role to the user of that name if it has none, whatever its tenant.
  lemma RoleGiven(db: Db, i: Inputs, draws: Draws, u: Id)
    requires Constraints(db) && Fresh(draws, db)
    requires UserNamed(db.users, i.adminUsername) == Some(u) && db.users[u].roleId.None?
    ensures (var a3, seeded := After(db, i, draws, 3), After(db, i, draws, 5);
             var admin := RoleNamed(a3.roles, TheTenant(a3.tenants, i), ADMIN);
             && admin.Some? && seeded.roles == a3.roles && seeded.tenants == a3.tenants
             && u in seeded.users && seeded.users[u] == db.users[u].(roleId := admin))
  {
    hide After, Stage, Constraints, SettledTo, Grown, RoleSettled, Fresh, WithUser, UsernamesUnique, NamesUnique, RolesUnique;
    var a3, a4 := After(db, i, draws, 3), After(db, i, draws, 4);
    var t := TheTenant(a3.tenants, i);
    UserStages(db, i, draws);
    StageReady(db, i, draws, 4);
    StageReady(db, i, draws, 5);
    GivenRole(a3.users, t, i.adminUsername, draws.adminHash, RoleNamed(a3.roles, t, ADMIN).value, draws.admin, u);
    UserStageHolds(a4.users, t, i.approverUsername, draws.approverHash, RoleNamed(a3.roles, t, APPROVER).value, draws.approver, u);
  }

  // A user of another tenant who is given the role is refused every permission, then and ever after.
  lemma ForeignUserStaysOut(db: Db, i: Inputs, draws: Draws, u: Id, events: seq<Event>, db': Db, token: Claims, permission: Text)
    requires Constraints(db) && Fresh(draws, db)
    requires UserNamed(db.users, i.adminUsername) == Some(u) && db.users[u].roleId.None?
    requires db.tenants[db.users[u].tenantId].name != i.tenantName
    requires History(After(db, i, draws, 5), events, db')
    requires token.sub == u && token.tenantId == Some(db.users[u].tenantId) && permission != []
    ensures u in After(db, i, draws, 5).users
    ensures After(db, i, draws, 5).users[u].roleId == Some(TheRole(After(db, i, draws, 5), i, ADMIN))
    ensures Guarded(db', token, permission) == Err(RoleNotValidForTenant)
  {
    var seeded := After(db, i, draws, 5);
    hide After, History, Fresh, SettledTo, Grown, Settles, Abroad, Guarded;
    PartialRun(db, i, draws, 5);
    RoleGiven(db, i, draws, u);
    assert db.users[u].tenantId in db.tenants;
    TenantApart(db, i, draws, db.users[u].tenantId);
    hide Constraints;
    RefusedAbroad(seeded, db.users[u], u, events, db', token, permission);
  }

  lemma RefusedAbroad(seeded: Db, was: User, u: Id, events: seq<Event>, db': Db, token: Claims, permission: Text)
    requires Constraints(seeded) && History(seeded, events, db') && u in seeded.users
    requires seeded.users[u].tenantId == was.tenantId && seeded.users[u].roleId.Some?
    requires seeded.users[u].roleId.value in seeded.roles
    requires seeded.roles[seeded.users[u].roleId.value].tenantId != was.tenantId
    requires token.sub == u && token.tenantId == Some(was.tenantId) && permission != []
    ensures Guarded(db', token, permission) == Err(RoleNotValidForTenant)
  {
    hide History, Constraints, HasPermission;
    AbroadHere(seeded, was, u);
    HistoryAbroad(seeded, events, db', u);
    HistoryKeeps(seeded, events, db');
    IdsThere(db', u);
  }

  lemma AbroadHere(db: Db, was: User, u: Id)
    requires u in db.users && db.users[u].tenantId == was.tenantId && db.users[u].roleId.Some?
    requires db.users[u].roleId.value in db.roles && db.roles[db.users[u].roleId.value].tenantId != was.tenantId
    ensures Abroad(db, u)
  {
  }

  lemma IdsThere(db: Db, u: Id)
    requires Constraints(db) && u in db.users
    ensures u != "" && db.users[u].tenantId != "" && (db.users[u].roleId.Some? ==> db.users[u].roleId.value != "")
  {
    hide NamesUnique, RolesUnique, UsernamesUnique, RoleReferences;
  }

  // ---- Exactly which users a finished run leaves with a role of another tenant ----

  predicate AbroadIn(users: map<Id, User>, roles: map<Id, Role>, u: Id) {
    && u in users && users[u].roleId.Some? && users[u].roleId.value in roles
    && roles[users[u].roleId.value].tenantId != users[u].tenantId
  }

  // The script is about to give u the role of a tenant t that is not u's.
  predicate Given(users: map<Id, User>, t: Id, username: string, u: Id) {
    u in users && users[u].username == username && users[u].roleId.None? && users[u].tenantId != t
  }

  lemma StageAbroadIff(users: map<Id, User>, roles: map<Id, Role>, t: Id, username: string, hash: string,
                       roleId: Id, newId: Id, u: Id)
    requires UsernamesUnique(users) && newId !in users && roleId in roles && roles[roleId].tenantId == t
    ensures (var users' := WithUser(users, t, username, hash, roleId, newId);
             && (AbroadIn(users', roles, u) <==> AbroadIn(users, roles, u) || Given(users, t, username, u))
             && (u in users ==> u in users' && users'[u].username == users[u].username && users'[u].tenantId == users[u].tenantId)
             && (forall name :: Given(users', t, name, u) <==> Given(users, t, name, u) && name != username))
  {
  }

  // u exists in a tenant of another name, without a role, under one of the two usernames.
  ghost predicate Stranded(db: Db, i: Inputs, u: Id) {
    && u in db.users && db.users[u].roleId.None?
    && db.users[u].username in {i.adminUsername, i.approverUsername}
    && db.users[u].tenantId in db.tenants && db.tenants[db.users[u].tenantId].name != i.tenantName
  }

  lemma OtherTenantIff(db: Db, i: Inputs, draws: Draws, tenantId: Id)
    requires Constraints(db) && Fresh(draws, db) && tenantId in db.tenants
    ensures TheTenant(After(db, i, draws, 3).tenants, i) != tenantId <==> db.tenants[tenantId].name != i.tenantName
  {
    var a3 := After(db, i, draws, 3);
    RunKeeps(db, i, draws, 3);
    PartialRun(db, i, draws, 3);
    assert Settled(a3, i, 1) && NamesUnique(a3.tenants);
    hide After, Fresh, SettledTo, Grown, RolesKept, UsersKept, RolesUnique, UsernamesUnique, RoleReferences, UserReferences;
  }

  // The roles' tenants are what they were, so nobody is abroad because of the role stages.
  lemma RolesStayPut(db: Db, i: Inputs, draws: Draws, u: Id)
    requires Constraints(db) && Fresh(draws, db)
    ensures AbroadIn(db.users, After(db, i, draws, 3).roles, u) <==> Abroad(db, u)
  {
    RunKeeps(db, i, draws, 3);
    hide After, Fresh, TenantsKept, UsersKept, NamesUnique, RolesUnique, UsernamesUnique, RoleReferences;
  }

  lemma AbroadAfterIff(db: Db, i: Inputs, draws: Draws, u: Id)
    requires Constraints(db) && Fresh(draws, db)
    ensures Abroad(After(db, i, draws, 5), u) <==> Abroad(db, u) || Stranded(db, i, u)
  {
    hide After, Stage, Constraints, Fresh, SettledTo, Grown, RoleSettled, WithUser, UsernamesUnique, NamesUnique, RolesUnique,
      AbroadIn, Abroad, Given, Stranded;
    var a3, a4, a5 := After(db, i, draws, 3), After(db, i, draws, 4), After(db, i, draws, 5);
    var t := TheTenant(a3.tenants, i);
    UserStages(db, i, draws);
    StageReady(db, i, draws, 4);
    StageReady(db, i, draws, 5);
    RolesStayPut(db, i, draws, u);
    var admin, approver := RoleNamed(a3.roles, t, ADMIN).value, RoleNamed(a3.roles, t, APPROVER).value;
    StageAbroadIff(a3.users, a3.roles, t, i.adminUsername, draws.adminHash, admin, draws.admin, u);
    StageAbroadIff(a4.users, a3.roles, t, i.approverUsername, draws.approverHash, approver, draws.approver, u);
    AbroadIs(a5, u);
    StrandedIff(db, i, draws, u);
  }

  lemma AbroadIs(db: Db, u: Id)
    ensures Abroad(db, u) <==> AbroadIn(db.users, db.roles, u)
  {
  }

  lemma StrandedIff(db: Db, i: Inputs, draws: Draws, u: Id)
    requires Constraints(db) && Fresh(draws, db)
    ensures (var t := TheTenant(After(db, i, draws, 3).tenants, i);
             Stranded(db, i, u) <==> Given(db.users, t, i.adminUsername, u) || Given(db.users, t, i.approverUsername, u))
  {
    if u in db.users {
      assert db.users[u].tenantId in db.tenants;
      OtherTenantIff(db, i, draws, db.users[u].tenantId);
    }
    hide After, Constraints, Fresh, TheTenant;
  }
}
