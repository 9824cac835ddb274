/** The constraints the seed script and the services rely on are those of the schema that the
    four migrations build. */
module AccountsSchema {
  import opened Collections
  import Accounts
  import opened Schema
  import opened Migrations

  // The rows as the migrated tables hold them; other stands for the columns no constraint looks at.
  function TenantRow(id: RowKey, tenant: Accounts.Tenant, other: Value): Row {
    map[ID := Val(id), NAME := Val(tenant.name), CREATED_AT := other]
  }

  function TenantRows(tenants: map<RowKey, Accounts.Tenant>, other: Value): map<RowKey, Row> {
    map t | t in tenants :: TenantRow(t, tenants[t], other)
  }

  function RoleRow(id: RowKey, role: Accounts.Role, other: Value): Row {
    map[ID := Val(id), TENANT_ID := Val(role.tenantId), NAME := Val(role.name), PERMISSIONS := other, CREATED_AT := other]
  }

  function RoleRows(roles: map<RowKey, Accounts.Role>, other: Value): map<RowKey, Row> {
    map r | r in roles :: RoleRow(r, roles[r], other)
  }

  function UserRow(id: RowKey, user: Accounts.User, other: Value): Row {
    map[ID := Val(id), USERNAME := Val(user.username), PASSWORD_HASH := Val(user.passwordHash),
        TENANT_ID := Val(user.tenantId),
        ROLE_ID := if user.roleId.Some? then Val(user.roleId.value) else Null,
        CREATED_AT := other]
  }

  function UserRows(users: map<RowKey, Accounts.User>, other: Value): map<RowKey, Row> {
    map u | u in users :: UserRow(u, users[u], other)
  }

  function Relational(db: Accounts.Db, other: Value): Db {
    map[TASKS_TABLE := Table(TASKS, map[]),
        EVENTS_TABLE := Table(PROCESSED_EVENTS, map[]),
        TENANTS_TABLE := Table(TENANTS, TenantRows(db.tenants, other)),
        ROLES_TABLE := Table(ROLES, RoleRows(db.roles, other)),
        USERS_TABLE := Table(USERS_WITH_ROLES, UserRows(db.users, other))]
  }

  lemma TenantsDistinct(tenants: map<RowKey, Accounts.Tenant>, other: Value)
    ensures Distinct(TenantRows(tenants, other), {NAME}) <==> Accounts.NamesUnique(tenants)
  {
    var rows := TenantRows(tenants, other);
    if Distinct(rows, {NAME}) {
      forall a, b | a in tenants && b in tenants && tenants[a].name == tenants[b].name ensures a == b {
        assert Same(rows[a], rows[b], {NAME});
      }
    }
  }

  lemma TenantRowFits(id: RowKey, tenant: Accounts.Tenant, other: Value)
    requires other != Null
    ensures RowFits(TENANTS.columns, TenantRow(id, tenant, other))
    ensures ID in TenantRow(id, tenant, other) && TenantRow(id, tenant, other)[ID] == Val(id)
  {
  }

  lemma TenantsFit(tenants: map<RowKey, Accounts.Tenant>, other: Value)
    requires other != Null
    ensures WellFormed(TENANTS) && RowsFit(TENANTS, TenantRows(tenants, other))
    ensures Distinct(TenantRows(tenants, other), {ID})
  {
    forall t | t in tenants
      ensures RowFits(TENANTS.columns, TenantRow(t, tenants[t], other))
      ensures ID in TenantRow(t, tenants[t], other) && TenantRow(t, tenants[t], other)[ID] == Val(t)
    {
      TenantRowFits(t, tenants[t], other);
    }
    hide TenantRow, RowFits;
  }

  lemma TenantTable(tenants: map<RowKey, Accounts.Tenant>, other: Value)
    requires other != Null
    ensures TableValid(Table(TENANTS, TenantRows(tenants, other))) <==> Accounts.NamesUnique(tenants)
  {
    hide WellFormed, RowsFit, Distinct, TenantRows, TableValid, Accounts.NamesUnique;
    TenantsFit(tenants, other);
    TenantsDistinct(tenants, other);
    OneUnique(Table(TENANTS, TenantRows(tenants, other)), UQ_TENANT_NAME);
  }

  // A table whose rows fit and are keyed by their id is valid if its one unique constraint holds.
  lemma OneUnique(table: Table, u: Name)
    requires WellFormed(table.def) && RowsFit(table.def, table.rows) && Distinct(table.rows, {table.def.key})
    requires table.def.uniques.Keys == {u}
    ensures TableValid(table) <==> Distinct(table.rows, table.def.uniques[u])
  {
    hide WellFormed, RowsFit, Distinct;
  }

  lemma RolesDistinct(roles: map<RowKey, Accounts.Role>, other: Value)
    ensures Distinct(RoleRows(roles, other), {TENANT_ID, NAME}) <==> Accounts.RolesUnique(roles)
  {
    var rows := RoleRows(roles, other);
    if Distinct(rows, {TENANT_ID, NAME}) {
      forall a, b | a in roles && b in roles && roles[a].tenantId == roles[b].tenantId && roles[a].name == roles[b].name
        ensures a == b
      {
        assert Same(rows[a], rows[b], {TENANT_ID, NAME});
      }
    }
  }

  lemma RoleRowFits(id: RowKey, role: Accounts.Role, other: Value)
    requires other != Null
    ensures RowFits(ROLES.columns, RoleRow(id, role, other))
    ensures ID in RoleRow(id, role, other) && RoleRow(id, role, other)[ID] == Val(id)
  {
  }

  lemma RolesFit(roles: map<RowKey, Accounts.Role>, other: Value)
    requires other != Null
    ensures WellFormed(ROLES) && RowsFit(ROLES, RoleRows(roles, other)) && Distinct(RoleRows(roles, other), {ID})
  {
    forall r | r in roles
      ensures RowFits(ROLES.columns, RoleRow(r, roles[r], other))
      ensures ID in RoleRow(r, roles[r], other) && RoleRow(r, roles[r], other)[ID] == Val(r)
    {
      RoleRowFits(r, roles[r], other);
    }
    hide RoleRow, RowFits;
  }

  lemma RoleTable(roles: map<RowKey, Accounts.Role>, other: Value)
    requires other != Null
    ensures TableValid(Table(ROLES, RoleRows(roles, other))) <==> Accounts.RolesUnique(roles)
  {
    hide WellFormed, RowsFit, Distinct, RoleRows, TableValid, Accounts.RolesUnique;
    RolesFit(roles, other);
    RolesDistinct(roles, other);
    OneUnique(Table(ROLES, RoleRows(roles, other)), UQ_ROLE_TENANT_NAME);
  }

  lemma UsersDistinct(users: map<RowKey, Accounts.User>, other: Value)
    ensures Distinct(UserRows(users, other), {USERNAME}) <==> Accounts.UsernamesUnique(users)
  {
    var rows := UserRows(users, other);
    if Distinct(rows, {USERNAME}) {
      forall a, b | a in users && b in users && users[a].username == users[b].username ensures a == b {
        assert Same(rows[a], rows[b], {USERNAME});
      }
    }
  }

  lemma UserRowFits(id: RowKey, user: Accounts.User, other: Value)
    requires other != Null
    ensures RowFits(USERS_WITH_ROLES.columns, UserRow(id, user, other))
    ensures ID in UserRow(id, user, other) && UserRow(id, user, other)[ID] == Val(id)
  {
  }

  lemma UsersFit(users: map<RowKey, Accounts.User>, other: Value)
    requires other != Null
    ensures WellFormed(USERS_WITH_ROLES) && RowsFit(USERS_WITH_ROLES, UserRows(users, other))
    ensures Distinct(UserRows(users, other), {ID})
  {
    forall u | u in users
      ensures RowFits(USERS_WITH_ROLES.columns, UserRow(u, users[u], other))
      ensures ID in UserRow(u, users[u], other) && UserRow(u, users[u], other)[ID] == Val(u)
    {
      UserRowFits(u, users[u], other);
    }
    hide UserRow, RowFits;
  }

  lemma UserTable(users: map<RowKey, Accounts.User>, other: Value)
    requires other != Null
    ensures TableValid(Table(USERS_WITH_ROLES, UserRows(users, other))) <==> Accounts.UsernamesUnique(users)
  {
    hide WellFormed, RowsFit, Distinct, UserRows, TableValid, Accounts.UsernamesUnique;
    UsersFit(users, other);
    UsersDistinct(users, other);
    OneUnique(Table(USERS_WITH_ROLES, UserRows(users, other)), UQ_USERNAME);
  }

  lemma PresentId(rows: map<RowKey, Row>, id: string)
    requires forall r :: r in rows ==> ID in rows[r] && rows[r][ID] == Val(r)
    ensures Present(rows, ID, Val(id)) <==> id in rows
  {
    if id in rows {
      assert ID in rows[id] && rows[id][ID] == Val(id);
    }
  }

  // The foreign key column of each row, and what it may refer to.
  predicate Holds(rows: map<RowKey, Row>, column: Name, refs: map<RowKey, Option<string>>) {
    && rows.Keys == refs.Keys
    && forall r :: r in rows ==>
         column in rows[r] && rows[r][column] == if refs[r].Some? then Val(refs[r].value) else Null
  }

  predicate KeyedById(rows: map<RowKey, Row>) {
    forall r :: r in rows ==> ID in rows[r] && rows[r][ID] == Val(r)
  }

  lemma RefersIff(target: Table, rows: map<RowKey, Row>, fk: ForeignKey, refs: map<RowKey, Option<string>>)
    requires fk.referenced == ID && ID in target.def.columns && KeyedById(target.rows) && Holds(rows, fk.column, refs)
    ensures RefersTo(target, rows, fk) <==> forall r :: r in refs && refs[r].Some? ==> refs[r].value in target.rows
  {
    forall id ensures Present(target.rows, ID, Val(id)) <==> id in target.rows {
      PresentId(target.rows, id);
    }
    hide Present, KeyedById;
    if RefersTo(target, rows, fk) {
      forall r | r in refs && refs[r].Some? ensures refs[r].value in target.rows {
        assert r in rows && rows[r][fk.column] == Val(refs[r].value);
      }
    }
  }

  lemma TenantsKeyed(tenants: map<RowKey, Accounts.Tenant>, other: Value)
    ensures KeyedById(TenantRows(tenants, other)) && TenantRows(tenants, other).Keys == tenants.Keys
  {
  }

  lemma RolesKeyed(roles: map<RowKey, Accounts.Role>, other: Value)
    ensures KeyedById(RoleRows(roles, other)) && RoleRows(roles, other).Keys == roles.Keys
    ensures Holds(RoleRows(roles, other), TENANT_ID, map r | r in roles :: Some(roles[r].tenantId))
  {
  }

  lemma UsersHold(users: map<RowKey, Accounts.User>, other: Value)
    ensures Holds(UserRows(users, other), TENANT_ID, map u | u in users :: Some(users[u].tenantId))
    ensures Holds(UserRows(users, other), ROLE_ID, map u | u in users :: users[u].roleId)
  {
    assert UserRows(users, other).Keys == users.Keys;
    forall u | u in users
      ensures (var row := UserRow(u, users[u], other);
               && TENANT_ID in row && row[TENANT_ID] == Val(users[u].tenantId)
               && ROLE_ID in row && row[ROLE_ID] == if users[u].roleId.Some? then Val(users[u].roleId.value) else Null)
    {
      UserRowHolds(u, users[u], other);
    }
    hide UserRow;
  }

  lemma UserRowHolds(id: RowKey, user: Accounts.User, other: Value)
    ensures (var row := UserRow(id, user, other);
             && TENANT_ID in row && row[TENANT_ID] == Val(user.tenantId)
             && ROLE_ID in row && row[ROLE_ID] == if user.roleId.Some? then Val(user.roleId.value) else Null)
  {
  }

  lemma RoleKeys(roles: map<RowKey, Accounts.Role>, tenants: map<RowKey, Accounts.Tenant>, other: Value)
    ensures RefersTo(Table(TENANTS, TenantRows(tenants, other)), RoleRows(roles, other), ROLE_TENANT)
       <==> Accounts.RoleReferences(roles, tenants)
  {
    hide TenantRows, RoleRows, RefersTo, KeyedById, Holds;
    TenantsKeyed(tenants, other);
    RolesKeyed(roles, other);
    var refs := map r | r in roles :: Some(roles[r].tenantId);
    RefersIff(Table(TENANTS, TenantRows(tenants, other)), RoleRows(roles, other), ROLE_TENANT, refs);
    assert forall r :: r in roles ==> r in refs && refs[r] == Some(roles[r].tenantId);
  }

  lemma UserTenantKeys(users: map<RowKey, Accounts.User>, tenants: map<RowKey, Accounts.Tenant>, other: Value)
    ensures RefersTo(Table(TENANTS, TenantRows(tenants, other)), UserRows(users, other), USER_TENANT)
       <==> forall u :: u in users ==> users[u].tenantId in tenants
  {
    hide TenantRows, UserRows, RefersTo, KeyedById, Holds;
    TenantsKeyed(tenants, other);
    UsersHold(users, other);
    var refs := map u | u in users :: Some(users[u].tenantId);
    RefersIff(Table(TENANTS, TenantRows(tenants, other)), UserRows(users, other), USER_TENANT, refs);
    assert forall u :: u in users ==> u in refs && refs[u] == Some(users[u].tenantId);
  }

  lemma UserRoleKeys(users: map<RowKey, Accounts.User>, roles: map<RowKey, Accounts.Role>, other: Value)
    ensures RefersTo(Table(ROLES, RoleRows(roles, other)), UserRows(users, other), USER_ROLE)
       <==> forall u :: u in users && users[u].roleId.Some? ==> users[u].roleId.value in roles
  {
    hide RoleRows, UserRows, RefersTo, KeyedById, Holds;
    RolesKeyed(roles, other);
    UsersHold(users, other);
    var refs := map u | u in users :: users[u].roleId;
    RefersIff(Table(ROLES, RoleRows(roles, other)), UserRows(users, other), USER_ROLE, refs);
    assert forall u :: u in users ==> u in refs && refs[u] == users[u].roleId;
  }

  // A migrated database has five tables and three foreign keys.
  lemma FiveTables(rel: Db)
    requires Shaped(rel, 4)
    ensures (forall t :: t in rel ==> TableValid(rel[t])) <==>
              && TableValid(rel[TASKS_TABLE]) && TableValid(rel[EVENTS_TABLE]) && TableValid(rel[TENANTS_TABLE])
              && TableValid(rel[ROLES_TABLE]) && TableValid(rel[USERS_TABLE])
  {
    hide TableValid;
  }

  lemma RelationalKeys(db: Accounts.Db, other: Value)
    ensures Relational(db, other).Keys == TablesAt(4)
  {
    hide TenantRows, RoleRows, UserRows;
  }

  lemma RelationalDefinition(db: Accounts.Db, other: Value, t: Name)
    requires t in Relational(db, other)
    ensures Relational(db, other)[t].def == DefinitionAt(t, 4)
  {
    hide TenantRows, RoleRows, UserRows;
  }

  lemma RelationalShaped(db: Accounts.Db, other: Value)
    ensures Shaped(Relational(db, other), 4)
  {
    hide Relational, TablesAt, DefinitionAt;
    RelationalKeys(db, other);
    forall t | t in Relational(db, other) ensures Relational(db, other)[t].def == DefinitionAt(t, 4) {
      RelationalDefinition(db, other, t);
    }
  }

  lemma TablesValidIff(db: Accounts.Db, other: Value)
    requires other != Null
    ensures (var rel := Relational(db, other); forall t :: t in rel ==> TableValid(rel[t])) <==>
              Accounts.NamesUnique(db.tenants) && Accounts.RolesUnique(db.roles) && Accounts.UsernamesUnique(db.users)
  {
    hide TenantRows, RoleRows, UserRows, TableValid, Shaped;
    hide Accounts.NamesUnique, Accounts.RolesUnique, Accounts.UsernamesUnique;
    RelationalShaped(db, other);
    FiveTables(Relational(db, other));
    TenantTable(db.tenants, other);
    RoleTable(db.roles, other);
    UserTable(db.users, other);
    EmptyTable(Table(TASKS, map[]));
    EmptyTable(Table(PROCESSED_EVENTS, map[]));
  }

  lemma ReferencesIff(db: Accounts.Db, other: Value)
    ensures References(Relational(db, other)) <==>
              Accounts.RoleReferences(db.roles, db.tenants) && Accounts.UserReferences(db.users, db.tenants, db.roles)
  {
    hide TenantRows, RoleRows, UserRows, RefersTo, References, Shaped, Accounts.RoleReferences;
    RelationalShaped(db, other);
    ThreeKeys(Relational(db, other));
    RoleKeys(db.roles, db.tenants, other);
    UserTenantKeys(db.users, db.tenants, other);
    UserRoleKeys(db.users, db.roles, other);
  }

  // The constraints assumed of accounts hold exactly when the rows are a valid database of the
  // migrated schema.
  lemma ConstraintsAreMigrated(db: Accounts.Db, other: Value)
    requires other != Null && Accounts.IdsNotEmpty(db)
    ensures At(Relational(db, other), 4) <==> Accounts.Constraints(db)
  {
    hide Relational, TableValid, References, SchemaAt, SchemaOf, Shaped;
    hide Accounts.NamesUnique, Accounts.RolesUnique, Accounts.UsernamesUnique, Accounts.RoleReferences, Accounts.UserReferences;
    RelationalShaped(db, other);
    Definitions(Relational(db, other), 4);
    TablesValidIff(db, other);
    ReferencesIff(db, other);
  }

  lemma ThreeKeys(rel: Db)
    requires Shaped(rel, 4)
    ensures References(rel) <==>
              && Refers(rel, rel[ROLES_TABLE].rows, ROLE_TENANT)
              && Refers(rel, rel[USERS_TABLE].rows, USER_TENANT)
              && Refers(rel, rel[USERS_TABLE].rows, USER_ROLE)
  {
    hide RefersTo;
    assert rel[ROLES_TABLE].def.foreignKeys[FK_ROLE_TENANT] == ROLE_TENANT;
    assert rel[USERS_TABLE].def.foreignKeys[FK_USER_TENANT] == USER_TENANT;
    assert rel[USERS_TABLE].def.foreignKeys[FK_USER_ROLE] == USER_ROLE;
  }
}
