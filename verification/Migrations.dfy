/** The four migrations: their statements, what they do to the data, and what running them up
    and down in last-in-first-out order keeps. */
module Migrations {
  import opened Collections
  import opened Schema

  // The tables, columns and constraints, numbered.
  const TASKS_TABLE: Name := 0
  const EVENTS_TABLE: Name := 1
  const USERS_TABLE: Name := 2
  const TENANTS_TABLE: Name := 3
  const ROLES_TABLE: Name := 4
  const ID: Name := 5
  const TITLE: Name := 6
  const COMPLETED: Name := 7
  const CREATED_AT: Name := 8
  const EVENT_ID: Name := 9
  const EVENT_TYPE: Name := 10
  const PROCESSED_AT: Name := 11
  const USERNAME: Name := 12
  const PASSWORD_HASH: Name := 13
  const TENANT_ID: Name := 14
  const ROLE_ID: Name := 15
  const NAME: Name := 16
  const PERMISSIONS: Name := 17
  const UQ_USERNAME: Name := 18
  const UQ_TENANT_NAME: Name := 19
  const UQ_ROLE_TENANT_NAME: Name := 20
  const FK_USER_TENANT: Name := 21
  const FK_USER_ROLE: Name := 22
  const FK_ROLE_TENANT: Name := 23

  function Required(kind: Kind): Column { Column(kind, false, NoDefault) }
  function Optional(kind: Kind): Column { Column(kind, true, NoDefault) }

  const GENERATED_ID := Column(Uuid, false, NewUuid)
  const NOW := Column(Timestamp, false, CurrentTime)

  const TASKS := Definition(
    map[ID := GENERATED_ID, TITLE := Required(Varchar), COMPLETED := Column(Boolean, false, False), CREATED_AT := NOW],
    ID, map[], map[])
  const PROCESSED_EVENTS := Definition(
    map[EVENT_ID := Required(Uuid), EVENT_TYPE := Required(Varchar), PROCESSED_AT := NOW],
    EVENT_ID, map[], map[])
  const USERS := Definition(
    map[ID := GENERATED_ID, USERNAME := Required(Varchar), PASSWORD_HASH := Required(Varchar),
        CREATED_AT := NOW],
    ID, map[UQ_USERNAME := {USERNAME}], map[])
  const TENANTS := Definition(
    map[ID := GENERATED_ID, NAME := Required(Varchar), CREATED_AT := NOW],
    ID, map[UQ_TENANT_NAME := {NAME}], map[])
  const NEW_ROLES := Definition(
    map[ID := GENERATED_ID, TENANT_ID := Required(Uuid), NAME := Required(Varchar),
        PERMISSIONS := Required(Text), CREATED_AT := NOW],
    ID, map[], map[])

  const ROLE_TENANT := ForeignKey(TENANT_ID, TENANTS_TABLE, ID)
  const USER_TENANT := ForeignKey(TENANT_ID, TENANTS_TABLE, ID)
  const USER_ROLE := ForeignKey(ROLE_ID, ROLES_TABLE, ID)

  const ROLES := NEW_ROLES.(uniques := map[UQ_ROLE_TENANT_NAME := {TENANT_ID, NAME}],
                            foreignKeys := map[FK_ROLE_TENANT := ROLE_TENANT])
  const SCOPED_USERS := USERS.(columns := USERS.columns[TENANT_ID := Required(Uuid)],
                               foreignKeys := map[FK_USER_TENANT := USER_TENANT])
  const USERS_WITH_ROLES :=
    SCOPED_USERS.(columns := SCOPED_USERS.columns[ROLE_ID := Optional(Uuid)],
                  foreignKeys := map[FK_USER_TENANT := USER_TENANT, FK_USER_ROLE := USER_ROLE])

  type Level = n: nat | n <= 4

  function TablesAt(n: Level): set<Name> {
    if n == 0 then {}
    else if n == 1 then {TASKS_TABLE, EVENTS_TABLE}
    else if n == 2 then {TASKS_TABLE, EVENTS_TABLE, USERS_TABLE}
    else if n == 3 then {TASKS_TABLE, EVENTS_TABLE, USERS_TABLE, TENANTS_TABLE}
    else {TASKS_TABLE, EVENTS_TABLE, USERS_TABLE, TENANTS_TABLE, ROLES_TABLE}
  }

  function DefinitionAt(t: Name, n: Level): Definition {
    if t == TASKS_TABLE then TASKS
    else if t == EVENTS_TABLE then PROCESSED_EVENTS
    else if t == TENANTS_TABLE then TENANTS
    else if t == ROLES_TABLE then ROLES
    else if n <= 2 then USERS
    else if n == 3 then SCOPED_USERS
    else USERS_WITH_ROLES
  }

  // The schema after n migrations.
  function SchemaAt(n: Level): Schema {
    map t | t in TablesAt(n) :: DefinitionAt(t, n)
  }

  // A constraint-respecting database of the schema after n migrations.
  ghost predicate At(db: Db, n: Level) {
    Valid(db) && SchemaOf(db) == SchemaAt(n)
  }

  function Create(t: Name, def: Definition): Statement {
    CreateTable(t, def.columns, def.key, def.uniques)
  }

  /** What the database fills in when it inserts the default tenant. */
  datatype Defaults = Defaults(id: string, now: string)

  function DefaultTenant(d: Defaults): Row {
    map[ID := Val(d.id), NAME := Val("default"), CREATED_AT := Val(d.now)]
  }

  // The statements of migration n + 1, in order.
  function UpStatements(n: Level, d: Defaults): seq<Statement>
    requires n < 4
  {
    if n == 0 then [Create(TASKS_TABLE, TASKS), Create(EVENTS_TABLE, PROCESSED_EVENTS)]
    else if n == 1 then [Create(USERS_TABLE, USERS)]
    else if n == 2 then
      [Create(TENANTS_TABLE, TENANTS),
       Insert(TENANTS_TABLE, d.id, DefaultTenant(d)),
       AddColumn(USERS_TABLE, TENANT_ID, Optional(Uuid)),
       SetFromLookup(USERS_TABLE, TENANT_ID, TENANTS_TABLE, ID, NAME, "default"),
       ChangeColumn(USERS_TABLE, TENANT_ID, Required(Uuid)),
       CreateForeignKey(USERS_TABLE, FK_USER_TENANT, USER_TENANT)]
    else
      [Create(ROLES_TABLE, NEW_ROLES),
       CreateForeignKey(ROLES_TABLE, FK_ROLE_TENANT, ROLE_TENANT),
       CreateUnique(ROLES_TABLE, UQ_ROLE_TENANT_NAME, {TENANT_ID, NAME}),
       AddColumn(USERS_TABLE, ROLE_ID, Optional(Uuid)),
       CreateForeignKey(USERS_TABLE, FK_USER_ROLE, USER_ROLE)]
  }

  function DownStatements(n: Level): seq<Statement>
    requires n > 0
  {
    if n == 1 then [DropTable(EVENTS_TABLE), DropTable(TASKS_TABLE)]
    else if n == 2 then [DropTable(USERS_TABLE)]
    else if n == 3 then
      [DropForeignKey(USERS_TABLE, FK_USER_TENANT), DropColumn(USERS_TABLE, TENANT_ID), DropTable(TENANTS_TABLE)]
    else
      [DropForeignKey(USERS_TABLE, FK_USER_ROLE),
       DropColumn(USERS_TABLE, ROLE_ID),
       DropUnique(ROLES_TABLE, UQ_ROLE_TENANT_NAME),
       DropForeignKey(ROLES_TABLE, FK_ROLE_TENANT),
       DropTable(ROLES_TABLE)]
  }

  function WithColumn(rows: map<RowKey, Row>, c: Name, v: Value): map<RowKey, Row> {
    map r | r in rows :: rows[r][c := v]
  }

  // What each migration does to the data.

  function TablesCreated(db: Db): Db {
    db[TASKS_TABLE := Table(TASKS, map[])][EVENTS_TABLE := Table(PROCESSED_EVENTS, map[])]
  }

  function UsersCreated(db: Db): Db {
    db[USERS_TABLE := Table(USERS, map[])]
  }

  // The default tenant, with every user in it.
  function UsersScoped(db: Db, d: Defaults): Db
    requires USERS_TABLE in db
  {
    db[TENANTS_TABLE := Table(TENANTS, map[d.id := DefaultTenant(d)])]
      [USERS_TABLE := Table(SCOPED_USERS, WithColumn(db[USERS_TABLE].rows, TENANT_ID, Val(d.id)))]
  }

  // No roles, and no user has one.
  function RolesCreated(db: Db): Db
    requires USERS_TABLE in db
  {
    db[ROLES_TABLE := Table(ROLES, map[])]
      [USERS_TABLE := Table(USERS_WITH_ROLES, WithColumn(db[USERS_TABLE].rows, ROLE_ID, Null))]
  }

  function Upgraded(db: Db, n: Level, d: Defaults): Db
    requires n < 4 && (n > 1 ==> USERS_TABLE in db)
  {
    if n == 0 then TablesCreated(db)
    else if n == 1 then UsersCreated(db)
    else if n == 2 then UsersScoped(db, d)
    else RolesCreated(db)
  }

  ghost predicate Shaped(db: Db, n: Level) {
    db.Keys == TablesAt(n) && forall t :: t in db ==> db[t].def == DefinitionAt(t, n)
  }

  lemma Definitions(db: Db, n: Level)
    ensures SchemaOf(db) == SchemaAt(n) <==> Shaped(db, n)
  {
    assert SchemaOf(db).Keys == db.Keys && SchemaAt(n).Keys == TablesAt(n);
    if SchemaOf(db) == SchemaAt(n) {
      forall t | t in db ensures db[t].def == DefinitionAt(t, n) {
        assert SchemaOf(db)[t] == SchemaAt(n)[t];
      }
    }
    hide TablesAt, DefinitionAt;
  }

  lemma ExecNext(db: Db, l: seq<Statement>, k: nat, before: Db, after: Db)
    requires k < |l| && ExecTo(db, l, k) == Some(before) && Exec(before, l[k]) == Some(after)
    ensures ExecTo(db, l, k + 1) == Some(after) && Valid(after)
  {
    hide Valid, Applicable, Effect;
  }

  // ---- Up: no statement is refused ----

  // Every foreign key refers to the id of one of these tables.
  predicate KeysInto(db: Db, targets: set<Name>) {
    forall t, f :: t in db && f in db[t].def.foreignKeys ==>
      db[t].def.foreignKeys[f].table in targets && db[t].def.foreignKeys[f].referenced == ID
  }

  lemma UsersUnreferenced(db: Db, targets: set<Name>, c: Name)
    requires KeysInto(db, targets) && USERS_TABLE !in targets
    ensures Unreferenced(db, USERS_TABLE, c)
  {
  }

  // What a schema says of the tables a migration is about to touch.
  lemma Facts(db: Db, n: Level)
    requires At(db, n)
    ensures Valid(db)
    ensures TASKS_TABLE in db <==> n >= 1
    ensures EVENTS_TABLE in db <==> n >= 1
    ensures USERS_TABLE in db <==> n >= 2
    ensures TENANTS_TABLE in db <==> n >= 3
    ensures ROLES_TABLE in db <==> n >= 4
    ensures n == 2 ==> db[USERS_TABLE].def == USERS
    ensures n == 3 ==> db[USERS_TABLE].def == SCOPED_USERS
    ensures n == 4 ==> db[USERS_TABLE].def == USERS_WITH_ROLES && db[ROLES_TABLE].def == ROLES
    ensures n >= 3 ==> db[TENANTS_TABLE].def == TENANTS
  {
    Definitions(db, n);
    hide Valid, SchemaOf, SchemaAt;
  }

  lemma OtherKeys(db: Db, n: Level)
    requires At(db, n)
    ensures forall t :: t in db && t != USERS_TABLE && t != ROLES_TABLE ==> db[t].def.foreignKeys == map[]
  {
    Definitions(db, n);
    hide Valid, SchemaOf, SchemaAt;
    forall t | t in db && t != USERS_TABLE && t != ROLES_TABLE ensures db[t].def.foreignKeys == map[] {
      assert db[t].def == DefinitionAt(t, n);
      assert t in TablesAt(n);
    }
  }

  lemma KeyFacts(db: Db, n: Level)
    requires At(db, n)
    ensures KeysInto(db, if n <= 2 then {} else if n == 3 then {TENANTS_TABLE} else {TENANTS_TABLE, ROLES_TABLE})
  {
    Definitions(db, n);
    hide Valid, SchemaOf, SchemaAt;
  }

  lemma TablesCreatedRuns(db: Db, d: Defaults)
    requires At(db, 0)
    ensures ExecAll(db, UpStatements(0, d)) == Some(TablesCreated(db))
  {
    Facts(db, 0);
    hide Exec, Valid, At;
    var l, a := UpStatements(0, d), db[TASKS_TABLE := Table(TASKS, map[])];
    CreateTableSucceeds(db, TASKS_TABLE, TASKS.columns, TASKS.key, TASKS.uniques);
    ExecNext(db, l, 0, db, a);
    CreateTableSucceeds(a, EVENTS_TABLE, PROCESSED_EVENTS.columns, PROCESSED_EVENTS.key, PROCESSED_EVENTS.uniques);
    ExecNext(db, l, 1, a, TablesCreated(db));
  }

  lemma UsersCreatedRuns(db: Db, d: Defaults)
    requires At(db, 1)
    ensures ExecAll(db, UpStatements(1, d)) == Some(UsersCreated(db))
  {
    Facts(db, 1);
    hide Exec, Valid, At;
    CreateTableSucceeds(db, USERS_TABLE, USERS.columns, USERS.key, USERS.uniques);
    ExecNext(db, UpStatements(1, d), 0, db, UsersCreated(db));
  }

  const NULLABLE_USERS := USERS.(columns := USERS.columns[TENANT_ID := Optional(Uuid)])
  const TIGHT_USERS := USERS.(columns := USERS.columns[TENANT_ID := Required(Uuid)])

  lemma TenantIdAdded(db: Db)
    requires Valid(db) && USERS_TABLE in db && db[USERS_TABLE].def == USERS
    ensures Exec(db, AddColumn(USERS_TABLE, TENANT_ID, Optional(Uuid)))
         == Some(db[USERS_TABLE := Table(NULLABLE_USERS, WithColumn(db[USERS_TABLE].rows, TENANT_ID, Null))])
  {
    hide Exec, Valid;
    AddColumnSucceeds(db, USERS_TABLE, TENANT_ID, Optional(Uuid));
  }

  // The backfill gives every user the default tenant.
  lemma TenantIdFilled(db: Db, rows: map<RowKey, Row>, d: Defaults)
    requires Valid(db) && KeysInto(db, {}) && USERS_TABLE in db && TENANTS_TABLE in db
    requires db[TENANTS_TABLE] == Table(TENANTS, map[d.id := DefaultTenant(d)])
    requires db[USERS_TABLE] == Table(NULLABLE_USERS, WithColumn(rows, TENANT_ID, Null))
    ensures Exec(db, SetFromLookup(USERS_TABLE, TENANT_ID, TENANTS_TABLE, ID, NAME, "default"))
         == Some(db[USERS_TABLE := Table(NULLABLE_USERS, WithColumn(rows, TENANT_ID, Val(d.id)))])
  {
    hide Exec, Valid;
    UsersUnreferenced(db, {}, TENANT_ID);
    DefaultFound(d);
    FillSucceeds(db, USERS_TABLE, TENANT_ID, TENANTS_TABLE, ID, NAME, "default", d.id);
    var filled := Filled(db[USERS_TABLE], TENANT_ID, Val(d.id)).rows;
    forall r | r in rows ensures filled[r] == WithColumn(rows, TENANT_ID, Val(d.id))[r] {
      assert rows[r][TENANT_ID := Null][TENANT_ID := Val(d.id)] == rows[r][TENANT_ID := Val(d.id)];
    }
    assert filled == WithColumn(rows, TENANT_ID, Val(d.id));
    hide KeysInto, Unreferenced;
  }

  lemma DefaultFound(d: Defaults)
    ensures Matching(map[d.id := DefaultTenant(d)], NAME, "default") == {d.id}
  {
  }

  // After the backfill the column can be tightened.
  lemma TenantIdTightened(db: Db, rows: map<RowKey, Row>, id: string)
    requires Valid(db) && USERS_TABLE in db
    requires db[USERS_TABLE] == Table(NULLABLE_USERS, WithColumn(rows, TENANT_ID, Val(id)))
    ensures Exec(db, ChangeColumn(USERS_TABLE, TENANT_ID, Required(Uuid)))
         == Some(db[USERS_TABLE := Table(TIGHT_USERS, WithColumn(rows, TENANT_ID, Val(id)))])
  {
    hide Exec, Valid;
    ChangeColumnSucceeds(db, USERS_TABLE, TENANT_ID, Required(Uuid));
    assert NULLABLE_USERS.columns[TENANT_ID := Required(Uuid)] == TIGHT_USERS.columns;
  }

  // And the foreign key holds of every user.
  lemma TenantIdLinked(db: Db, rows: map<RowKey, Row>, d: Defaults)
    requires Valid(db) && USERS_TABLE in db && TENANTS_TABLE in db
    requires db[TENANTS_TABLE] == Table(TENANTS, map[d.id := DefaultTenant(d)])
    requires db[USERS_TABLE] == Table(TIGHT_USERS, WithColumn(rows, TENANT_ID, Val(d.id)))
    ensures Exec(db, CreateForeignKey(USERS_TABLE, FK_USER_TENANT, USER_TENANT))
         == Some(db[USERS_TABLE := Table(SCOPED_USERS, WithColumn(rows, TENANT_ID, Val(d.id)))])
  {
    hide Exec, Valid;
    assert Present(db[TENANTS_TABLE].rows, ID, Val(d.id)) by {
      assert d.id in db[TENANTS_TABLE].rows && ID in db[TENANTS_TABLE].rows[d.id];
    }
    ForeignKeySucceeds(db, USERS_TABLE, FK_USER_TENANT, USER_TENANT);
  }

  lemma DefaultTenantInserted(db: Db, d: Defaults)
    requires Valid(db) && TENANTS_TABLE in db && db[TENANTS_TABLE] == Table(TENANTS, map[])
    ensures Exec(db, Insert(TENANTS_TABLE, d.id, DefaultTenant(d)))
         == Some(db[TENANTS_TABLE := Table(TENANTS, map[d.id := DefaultTenant(d)])])
  {
    hide Exec, Valid;
    assert DefaultTenant(d).Keys == TENANTS.columns.Keys;
    InsertSucceeds(db, TENANTS_TABLE, d.id, DefaultTenant(d));
  }

  lemma TenantsReady(db: Db, l: seq<Statement>, d: Defaults)
    requires Valid(db) && TENANTS_TABLE !in db && l == UpStatements(2, d)
    ensures ExecTo(db, l, 2) == Some(db[TENANTS_TABLE := Table(TENANTS, map[d.id := DefaultTenant(d)])])
    ensures Valid(db[TENANTS_TABLE := Table(TENANTS, map[d.id := DefaultTenant(d)])])
  {
    hide Exec, Valid, ExecTo, DefaultTenant;
    var a := db[TENANTS_TABLE := Table(TENANTS, map[])];
    var b := a[TENANTS_TABLE := Table(TENANTS, map[d.id := DefaultTenant(d)])];
    ExecNone(db, l);
    CreateTableSucceeds(db, TENANTS_TABLE, TENANTS.columns, TENANTS.key, TENANTS.uniques);
    ExecNext(db, l, 0, db, a);
    DefaultTenantInserted(a, d);
    ExecNext(db, l, 1, a, b);
    assert b == db[TENANTS_TABLE := Table(TENANTS, map[d.id := DefaultTenant(d)])];
  }

  lemma UsersScopedRuns(db: Db, d: Defaults)
    requires At(db, 2)
    ensures USERS_TABLE in db && ExecAll(db, UpStatements(2, d)) == Some(UsersScoped(db, d))
  {
    hide Exec, Valid, At, WithColumn, ExecTo, DefaultTenant, UpStatements, ExecAll;
    Facts(db, 2);
    KeyFacts(db, 2);
    var b := db[TENANTS_TABLE := Table(TENANTS, map[d.id := DefaultTenant(d)])];
    TenantsReady(db, UpStatements(2, d), d);
    assert KeysInto(b, {});
    FillAndLink(db, UpStatements(2, d), b, db[USERS_TABLE].rows, d);
  }

  lemma FillAndLink(db: Db, l: seq<Statement>, b: Db, rows: map<RowKey, Row>, d: Defaults)
    requires l == UpStatements(2, d) && ExecTo(db, l, 2) == Some(b) && Valid(b) && KeysInto(b, {})
    requires USERS_TABLE in b && b[USERS_TABLE] == Table(USERS, rows)
    requires TENANTS_TABLE in b && b[TENANTS_TABLE] == Table(TENANTS, map[d.id := DefaultTenant(d)])
    ensures ExecAll(db, l) == Some(b[USERS_TABLE := Table(SCOPED_USERS, WithColumn(rows, TENANT_ID, Val(d.id)))])
  {
    hide Exec, Valid, WithColumn, ExecTo;
    var filled := WithColumn(rows, TENANT_ID, Val(d.id));
    var c := b[USERS_TABLE := Table(NULLABLE_USERS, WithColumn(rows, TENANT_ID, Null))];
    var e := c[USERS_TABLE := Table(NULLABLE_USERS, filled)];
    var f := e[USERS_TABLE := Table(TIGHT_USERS, filled)];
    var g := f[USERS_TABLE := Table(SCOPED_USERS, filled)];
    TenantIdAdded(b);
    ExecNext(db, l, 2, b, c);
    TenantIdFilled(c, rows, d);
    ExecNext(db, l, 3, c, e);
    TenantIdTightened(e, rows, d.id);
    ExecNext(db, l, 4, e, f);
    TenantIdLinked(f, rows, d);
    ExecNext(db, l, 5, f, g);
    assert g == b[USERS_TABLE := Table(SCOPED_USERS, filled)];
  }

  // ---- The roles migration ----

  const TENANT_ROLES := NEW_ROLES.(foreignKeys := map[FK_ROLE_TENANT := ROLE_TENANT])
  const ROLELESS_USERS := USERS_WITH_ROLES.(foreignKeys := map[FK_USER_TENANT := USER_TENANT])

  lemma RolesLinked(db: Db)
    requires Valid(db) && TENANTS_TABLE in db && db[TENANTS_TABLE].def == TENANTS
    requires ROLES_TABLE in db && db[ROLES_TABLE] == Table(NEW_ROLES, map[])
    ensures Exec(db, CreateForeignKey(ROLES_TABLE, FK_ROLE_TENANT, ROLE_TENANT))
         == Some(db[ROLES_TABLE := Table(TENANT_ROLES, map[])])
  {
    hide Exec, Valid;
    ForeignKeySucceeds(db, ROLES_TABLE, FK_ROLE_TENANT, ROLE_TENANT);
  }

  lemma RolesMadeUnique(db: Db)
    requires Valid(db) && ROLES_TABLE in db && db[ROLES_TABLE] == Table(TENANT_ROLES, map[])
    ensures Exec(db, CreateUnique(ROLES_TABLE, UQ_ROLE_TENANT_NAME, {TENANT_ID, NAME}))
         == Some(db[ROLES_TABLE := Table(ROLES, map[])])
  {
    hide Exec, Valid;
    CreateUniqueSucceeds(db, ROLES_TABLE, UQ_ROLE_TENANT_NAME, {TENANT_ID, NAME});
  }

  lemma RoleIdAdded(db: Db)
    requires Valid(db) && USERS_TABLE in db && db[USERS_TABLE].def == SCOPED_USERS
    ensures Exec(db, AddColumn(USERS_TABLE, ROLE_ID, Optional(Uuid)))
         == Some(db[USERS_TABLE := Table(ROLELESS_USERS, WithColumn(db[USERS_TABLE].rows, ROLE_ID, Null))])
  {
    hide Exec, Valid;
    AddColumnSucceeds(db, USERS_TABLE, ROLE_ID, Optional(Uuid));
  }

  lemma RoleIdLinked(db: Db, rows: map<RowKey, Row>)
    requires Valid(db) && ROLES_TABLE in db && db[ROLES_TABLE] == Table(ROLES, map[])
    requires USERS_TABLE in db && db[USERS_TABLE] == Table(ROLELESS_USERS, WithColumn(rows, ROLE_ID, Null))
    ensures Exec(db, CreateForeignKey(USERS_TABLE, FK_USER_ROLE, USER_ROLE))
         == Some(db[USERS_TABLE := Table(USERS_WITH_ROLES, WithColumn(rows, ROLE_ID, Null))])
  {
    hide Exec, Valid;
    ForeignKeySucceeds(db, USERS_TABLE, FK_USER_ROLE, USER_ROLE);
  }

  lemma RolesReady(db: Db, l: seq<Statement>, d: Defaults)
    requires Valid(db) && ROLES_TABLE !in db && l == UpStatements(3, d)
    requires TENANTS_TABLE in db && db[TENANTS_TABLE].def == TENANTS
    ensures ExecTo(db, l, 3) == Some(db[ROLES_TABLE := Table(ROLES, map[])]) && Valid(db[ROLES_TABLE := Table(ROLES, map[])])
  {
    hide Exec, Valid, ExecTo;
    var a := db[ROLES_TABLE := Table(NEW_ROLES, map[])];
    var b := a[ROLES_TABLE := Table(TENANT_ROLES, map[])];
    var c := b[ROLES_TABLE := Table(ROLES, map[])];
    ExecNone(db, l);
    CreateTableSucceeds(db, ROLES_TABLE, NEW_ROLES.columns, NEW_ROLES.key, NEW_ROLES.uniques);
    ExecNext(db, l, 0, db, a);
    RolesLinked(a);
    ExecNext(db, l, 1, a, b);
    RolesMadeUnique(b);
    ExecNext(db, l, 2, b, c);
    assert c == db[ROLES_TABLE := Table(ROLES, map[])];
  }

  lemma RolesCreatedRuns(db: Db, d: Defaults)
    requires At(db, 3)
    ensures USERS_TABLE in db && ExecAll(db, UpStatements(3, d)) == Some(RolesCreated(db))
  {
    hide Exec, Valid, At, WithColumn, ExecTo, UpStatements, ExecAll;
    Facts(db, 3);
    RolesReady(db, UpStatements(3, d), d);
    UsersGetRoles(db, UpStatements(3, d), d, db[ROLES_TABLE := Table(ROLES, map[])], db[USERS_TABLE].rows);
  }

  lemma UsersGetRoles(db: Db, l: seq<Statement>, d: Defaults, c: Db, rows: map<RowKey, Row>)
    requires l == UpStatements(3, d) && ExecTo(db, l, 3) == Some(c) && Valid(c)
    requires USERS_TABLE in c && c[USERS_TABLE] == Table(SCOPED_USERS, rows)
    requires ROLES_TABLE in c && c[ROLES_TABLE] == Table(ROLES, map[])
    ensures ExecAll(db, l) == Some(c[USERS_TABLE := Table(USERS_WITH_ROLES, WithColumn(rows, ROLE_ID, Null))])
  {
    hide Exec, Valid, ExecTo, WithColumn;
    var e := c[USERS_TABLE := Table(ROLELESS_USERS, WithColumn(rows, ROLE_ID, Null))];
    var f := e[USERS_TABLE := Table(USERS_WITH_ROLES, WithColumn(rows, ROLE_ID, Null))];
    assert ExecTo(db, l, 4) == Some(e) && Valid(e) by {
      RoleIdAdded(c);
      ExecNext(db, l, 3, c, e);
    }
    RoleIdLinked(e, rows);
    ExecNext(db, l, 4, e, f);
    assert f == c[USERS_TABLE := Table(USERS_WITH_ROLES, WithColumn(rows, ROLE_ID, Null))];
  }

  lemma ExecNone(db: Db, l: seq<Statement>)
    ensures ExecTo(db, l, 0) == Some(db)
  {
  }

  // ---- Down: no statement is refused, and the older schema's part of the data is left ----

  lemma {:induction false} ExecAllValid(db: Db, l: seq<Statement>)
    requires Valid(db) && ExecAll(db, l).Some?
    ensures Valid(ExecAll(db, l).value)
  {
    if l != [] {
      ExecValid(ExecTo(db, l, |l| - 1).value, l[|l| - 1]);
    }
    hide Valid, Exec;
  }

  lemma ExecValid(db: Db, st: Statement)
    requires Exec(db, st).Some?
    ensures Valid(Exec(db, st).value)
  {
    hide Valid, Applicable, Effect;
  }

  lemma TablesDroppedRuns(db: Db)
    requires At(db, 1)
    ensures ExecAll(db, DownStatements(1)) == Some(map[])
  {
    Facts(db, 1);
    KeyFacts(db, 1);
    Definitions(db, 1);
    hide Exec, Valid, At, ExecTo;
    var l, a := DownStatements(1), db - {EVENTS_TABLE};
    ExecNone(db, l);
    DropTableSucceeds(db, EVENTS_TABLE);
    ExecNext(db, l, 0, db, a);
    DropTableSucceeds(a, TASKS_TABLE);
    ExecNext(db, l, 1, a, a - {TASKS_TABLE});
    assert db.Keys == {TASKS_TABLE, EVENTS_TABLE};
    assert a - {TASKS_TABLE} == map[];
  }

  lemma UsersDroppedRuns(db: Db)
    requires At(db, 2)
    ensures ExecAll(db, DownStatements(2)) == Some(db - {USERS_TABLE})
  {
    Facts(db, 2);
    KeyFacts(db, 2);
    hide Exec, Valid, At, ExecTo;
    ExecNone(db, DownStatements(2));
    DropTableSucceeds(db, USERS_TABLE);
    ExecNext(db, DownStatements(2), 0, db, db - {USERS_TABLE});
  }

  lemma KeysStay(db: Db, fk: Name, targets: set<Name>)
    requires USERS_TABLE in db && KeysInto(db, targets)
    ensures (var table := db[USERS_TABLE];
             KeysInto(db[USERS_TABLE := table.(def := table.def.(foreignKeys := table.def.foreignKeys - {fk}))], targets))
  {
  }

  // What the table definitions of two neighbouring schemas have in common.
  predicate Narrows(wide: Definition, fk: Name, c: Name, def: Definition) {
    && fk in wide.foreignKeys && c in wide.columns && c != wide.key
    && def.columns == wide.columns - {c} && def.key == wide.key && def.uniques == wide.uniques
    && def.foreignKeys == wide.foreignKeys - {fk}
    && (forall u :: u in def.uniques ==> c !in def.uniques[u])
    && (forall f :: f in def.foreignKeys ==> def.foreignKeys[f].column != c)
  }

  lemma UsersNarrow()
    ensures Narrows(SCOPED_USERS, FK_USER_TENANT, TENANT_ID, USERS)
    ensures Narrows(USERS_WITH_ROLES, FK_USER_ROLE, ROLE_ID, SCOPED_USERS)
  {
  }

  // Dropping a foreign key of users and then its column.
  lemma ColumnGone(db: Db, fk: Name, c: Name, def: Definition, targets: set<Name>)
    requires Valid(db) && USERS_TABLE in db && KeysInto(db, targets) && USERS_TABLE !in targets
    requires Narrows(db[USERS_TABLE].def, fk, c, def)
    ensures Exec(db, DropForeignKey(USERS_TABLE, fk)).Some?
    ensures Exec(Exec(db, DropForeignKey(USERS_TABLE, fk)).value, DropColumn(USERS_TABLE, c))
         == Some(db[USERS_TABLE := Restricted(db[USERS_TABLE], def)])
  {
    hide Exec, Valid, Restricted, Dropped, TableValid, KeysInto, Unreferenced;
    DropForeignKeySucceeds(db, USERS_TABLE, fk);
    ExecValid(db, DropForeignKey(USERS_TABLE, fk));
    var a := Exec(db, DropForeignKey(USERS_TABLE, fk)).value;
    KeysStay(db, fk, targets);
    UsersUnreferenced(a, targets, c);
    DropColumnSucceeds(a, USERS_TABLE, c);
    ValidTable(db, USERS_TABLE);
    DroppedIsRestricted(db[USERS_TABLE], a[USERS_TABLE].def, c, def);
    assert a[USERS_TABLE := Restricted(db[USERS_TABLE], def)] == db[USERS_TABLE := Restricted(db[USERS_TABLE], def)];
  }

  lemma DroppedIsRestricted(table: Table, unlinked: Definition, c: Name, def: Definition)
    requires TableValid(table)
    requires def.columns == table.def.columns - {c} && def.key == table.def.key && def.uniques == table.def.uniques
    requires unlinked == table.def.(foreignKeys := def.foreignKeys)
    requires forall u :: u in def.uniques ==> c !in def.uniques[u]
    requires forall f :: f in def.foreignKeys ==> def.foreignKeys[f].column != c
    ensures Dropped(Table(unlinked, table.rows), c) == Restricted(table, def)
  {
    var a, b := Dropped(Table(unlinked, table.rows), c), Restricted(table, def);
    forall r | r in table.rows ensures a.rows[r] == b.rows[r] {
      assert RowFits(table.def.columns, table.rows[r]);
      RowProjected(table.def.columns, table.rows[r], c);
    }
    assert a.rows == b.rows;
    hide Distinct, RowFits, Projected;
  }

  lemma RowProjected(columns: map<Name, Column>, row: Row, c: Name)
    requires RowFits(columns, row)
    ensures row - {c} == Projected(row, (columns - {c}).Keys)
  {
  }

  lemma TwoStatements(db: Db, l: seq<Statement>, after: Db)
    requires |l| >= 2 && Exec(db, l[0]).Some? && Exec(Exec(db, l[0]).value, l[1]) == Some(after)
    ensures ExecTo(db, l, 2) == Some(after) && Valid(after)
  {
    hide Exec, Valid, ExecTo;
    ExecNone(db, l);
    ExecNext(db, l, 0, db, Exec(db, l[0]).value);
    ExecNext(db, l, 1, Exec(db, l[0]).value, after);
  }

  lemma TenantsDroppedRuns(db: Db)
    requires At(db, 3)
    ensures USERS_TABLE in db
    ensures ExecAll(db, DownStatements(3))
         == Some(db[USERS_TABLE := Restricted(db[USERS_TABLE], USERS)] - {TENANTS_TABLE})
  {
    hide Exec, Valid, At, ExecTo, Restricted, Narrows, KeysInto;
    Facts(db, 3);
    KeyFacts(db, 3);
    var b := db[USERS_TABLE := Restricted(db[USERS_TABLE], USERS)];
    UsersNarrow();
    ColumnGone(db, FK_USER_TENANT, TENANT_ID, USERS, {TENANTS_TABLE});
    TwoStatements(db, DownStatements(3), b);
    NoKeysLeft(db, b);
    DropTableSucceeds(b, TENANTS_TABLE);
    ExecNext(db, DownStatements(3), 2, b, b - {TENANTS_TABLE});
  }

  lemma NoKeysLeft(db: Db, b: Db)
    requires At(db, 3) && USERS_TABLE in db && b == db[USERS_TABLE := Restricted(db[USERS_TABLE], USERS)]
    ensures KeysInto(b, {}) && forall t :: t in b ==> b[t].def.foreignKeys == map[]
  {
    Facts(db, 3);
    OtherKeys(db, 3);
    RestrictedDef(db[USERS_TABLE], USERS);
    hide At, Restricted;
    assert USERS.foreignKeys == map[];
    assert forall t :: t in b ==> b[t].def.foreignKeys == map[];
  }

  lemma RestrictedDef(table: Table, def: Definition)
    ensures Restricted(table, def).def == def
  {
  }

  lemma RolesDroppedRuns(db: Db)
    requires At(db, 4)
    ensures USERS_TABLE in db
    ensures ExecAll(db, DownStatements(4))
         == Some(db[USERS_TABLE := Restricted(db[USERS_TABLE], SCOPED_USERS)] - {ROLES_TABLE})
  {
    hide Exec, Valid, At, ExecTo, Restricted, Narrows, KeysInto;
    Facts(db, 4);
    KeyFacts(db, 4);
    var b := db[USERS_TABLE := Restricted(db[USERS_TABLE], SCOPED_USERS)];
    UsersNarrow();
    ColumnGone(db, FK_USER_ROLE, ROLE_ID, SCOPED_USERS, {TENANTS_TABLE, ROLES_TABLE});
    TwoStatements(db, DownStatements(4), b);
    OnlyTenantKeysLeft(db, b);
    RolesTableGone(db, DownStatements(4), b);
  }

  lemma OnlyTenantKeysLeft(db: Db, b: Db)
    requires At(db, 4) && USERS_TABLE in db && b == db[USERS_TABLE := Restricted(db[USERS_TABLE], SCOPED_USERS)]
    ensures KeysInto(b, {TENANTS_TABLE})
  {
    Facts(db, 4);
    OtherKeys(db, 4);
    RestrictedDef(db[USERS_TABLE], SCOPED_USERS);
    hide At, Restricted, KeysInto;
    forall t, f | t in b && f in b[t].def.foreignKeys
      ensures b[t].def.foreignKeys[f].table == TENANTS_TABLE && b[t].def.foreignKeys[f].referenced == ID
    {
      assert t == USERS_TABLE || t == ROLES_TABLE;
    }
    assert KeysInto(b, {TENANTS_TABLE}) by {
      KeysIntoIs(b);
    }
  }

  lemma KeysIntoIs(b: Db)
    requires forall t, f :: t in b && f in b[t].def.foreignKeys ==>
               b[t].def.foreignKeys[f].table == TENANTS_TABLE && b[t].def.foreignKeys[f].referenced == ID
    ensures KeysInto(b, {TENANTS_TABLE})
  {
  }

  lemma RolesTableGone(db: Db, l: seq<Statement>, b: Db)
    requires l == DownStatements(4) && ExecTo(db, l, 2) == Some(b) && Valid(b) && KeysInto(b, {TENANTS_TABLE})
    requires ROLES_TABLE in b && b[ROLES_TABLE].def == ROLES
    ensures ExecAll(db, l) == Some(b - {ROLES_TABLE})
  {
    hide Exec, Valid, ExecTo;
    DropUniqueSucceeds(b, ROLES_TABLE, UQ_ROLE_TENANT_NAME);
    var c := Exec(b, l[2]).value;
    ExecNext(db, l, 2, b, c);
    DropForeignKeySucceeds(c, ROLES_TABLE, FK_ROLE_TENANT);
    var e := Exec(c, l[3]).value;
    ExecNext(db, l, 3, c, e);
    assert KeysInto(e, {TENANTS_TABLE});
    DropTableSucceeds(e, ROLES_TABLE);
    ExecNext(db, l, 4, e, e - {ROLES_TABLE});
    assert e - {ROLES_TABLE} == b - {ROLES_TABLE};
  }

  // ---- Main results ----

  // Migrating up from any database that keeps its constraints: no statement is refused, and the
  // result has the next schema.
  lemma UpSucceeds(db: Db, n: Level, d: Defaults)
    requires At(db, n) && n < 4
    ensures n > 1 ==> USERS_TABLE in db
    ensures ExecAll(db, UpStatements(n, d)) == Some(Upgraded(db, n, d))
    ensures At(Upgraded(db, n, d), n + 1)
  {
    hide Valid, ExecAll, UpStatements;
    if n == 0 {
      TablesCreatedRuns(db, d);
    } else if n == 1 {
      UsersCreatedRuns(db, d);
    } else if n == 2 {
      UsersScopedRuns(db, d);
    } else {
      RolesCreatedRuns(db, d);
    }
    ExecAllValid(db, UpStatements(n, d));
    UpgradedSchema(db, n, d);
    hide Upgraded, SchemaAt, SchemaOf;
  }

  lemma UpgradedSchema(db: Db, n: Level, d: Defaults)
    requires At(db, n) && n < 4 && (n > 1 ==> USERS_TABLE in db)
    ensures SchemaOf(Upgraded(db, n, d)) == SchemaAt(n + 1)
  {
    hide Valid, SchemaOf, SchemaAt, WithColumn, DefaultTenant, Shaped;
    Definitions(db, n);
    if n == 0 {
      ShapedTables(db);
    } else if n == 1 {
      ShapedUsers(db);
    } else if n == 2 {
      ShapedTenants(db, d);
    } else {
      ShapedRoles(db);
    }
    Definitions(Upgraded(db, n, d), n + 1);
  }

  lemma ShapedTables(db: Db)
    requires Shaped(db, 0)
    ensures Shaped(TablesCreated(db), 1)
  {
  }

  lemma ShapedUsers(db: Db)
    requires Shaped(db, 1)
    ensures Shaped(UsersCreated(db), 2)
  {
  }

  lemma ShapedTenants(db: Db, d: Defaults)
    requires Shaped(db, 2)
    ensures USERS_TABLE in db && Shaped(UsersScoped(db, d), 3)
  {
    hide WithColumn, DefaultTenant;
  }

  lemma ShapedRoles(db: Db)
    requires Shaped(db, 3)
    ensures USERS_TABLE in db && Shaped(RolesCreated(db), 4)
  {
    hide WithColumn;
  }

  // Migrating down: no statement is refused, and what is left is exactly the part of the data
  // that the older schema holds.
  lemma DownSucceeds(db: Db, n: Level)
    requires At(db, n) && n > 0
    ensures ExecAll(db, DownStatements(n)) == Some(Restrict(db, SchemaAt(n - 1)))
    ensures At(Restrict(db, SchemaAt(n - 1)), n - 1)
  {
    hide Valid, ExecAll, DownStatements;
    var after: Db;
    if n == 1 {
      TablesDroppedRuns(db);
      after := map[];
    } else if n == 2 {
      UsersDroppedRuns(db);
      after := db - {USERS_TABLE};
    } else if n == 3 {
      TenantsDroppedRuns(db);
      after := db[USERS_TABLE := Restricted(db[USERS_TABLE], USERS)] - {TENANTS_TABLE};
    } else {
      RolesDroppedRuns(db);
      after := db[USERS_TABLE := Restricted(db[USERS_TABLE], SCOPED_USERS)] - {ROLES_TABLE};
    }
    DownIsRestrict(db, n, after);
    ExecAllValid(db, DownStatements(n));
    hide SchemaAt, SchemaOf, Restrict;
  }

  lemma DownIsRestrict(db: Db, n: Level, after: Db)
    requires At(db, n) && n > 0 && (n > 2 ==> USERS_TABLE in db)
    requires after == if n == 1 then map[]
                      else if n == 2 then db - {USERS_TABLE}
                      else if n == 3 then db[USERS_TABLE := Restricted(db[USERS_TABLE], USERS)] - {TENANTS_TABLE}
                      else db[USERS_TABLE := Restricted(db[USERS_TABLE], SCOPED_USERS)] - {ROLES_TABLE}
    ensures after == Restrict(db, SchemaAt(n - 1)) && SchemaOf(after) == SchemaAt(n - 1)
  {
    hide Valid, Restricted, SchemaOf, Restrict, Shaped;
    Definitions(db, n);
    if n > 2 {
      RestrictedDef(db[USERS_TABLE], if n == 3 then USERS else SCOPED_USERS);
    }
    ShapedDown(db, n, after);
    Definitions(after, n - 1);
    assert SchemaAt(n - 1).Keys == TablesAt(n - 1);
    hide TablesAt, DefinitionAt;
    RestrictIs(db, SchemaAt(n - 1), after);
  }

  // after keeps the tables of the older schema, the users restricted to it.
  ghost predicate Older(db: Db, n: Level, after: Db)
    requires n > 0
  {
    && Shaped(after, n - 1) && after.Keys == TablesAt(n - 1) && TablesAt(n - 1) <= db.Keys
    && forall t :: t in after ==>
         t in db && ((db[t].def == DefinitionAt(t, n - 1) && after[t] == db[t])
                     || after[t] == Restricted(db[t], DefinitionAt(t, n - 1)))
  }

  lemma ShapedDown(db: Db, n: Level, after: Db)
    requires Shaped(db, n) && n > 0 && (n > 2 ==> USERS_TABLE in db)
    requires n == 1 ==> after == map[]
    requires n == 2 ==> after == db - {USERS_TABLE}
    requires n > 2 ==> after == db[USERS_TABLE := Restricted(db[USERS_TABLE], if n == 3 then USERS else SCOPED_USERS)]
                                - {if n == 3 then TENANTS_TABLE else ROLES_TABLE}
    ensures Older(db, n, after)
  {
    hide Restricted;
    if n == 3 {
      WithoutTenants(db, after);
    } else if n == 4 {
      WithoutRoles(db, after);
    } else if n == 2 {
      WithoutUsers(db, after);
    }
    hide Older;
  }

  lemma WithoutUsers(db: Db, after: Db)
    requires Shaped(db, 2) && after == db - {USERS_TABLE}
    ensures Older(db, 2, after)
  {
    hide Restricted;
  }

  lemma WithoutTenants(db: Db, after: Db)
    requires Shaped(db, 3) && USERS_TABLE in db
    requires after == db[USERS_TABLE := Restricted(db[USERS_TABLE], USERS)] - {TENANTS_TABLE}
    ensures Older(db, 3, after)
  {
    RestrictedDef(db[USERS_TABLE], USERS);
    hide Restricted;
    assert after.Keys == TablesAt(2) && TablesAt(2) <= db.Keys;
    forall t | t in after
      ensures after[t].def == DefinitionAt(t, 2)
      ensures (db[t].def == DefinitionAt(t, 2) && after[t] == db[t]) || after[t] == Restricted(db[t], DefinitionAt(t, 2))
    {
      if t != USERS_TABLE {
        assert db[t].def == DefinitionAt(t, 3);
      }
    }
    hide TablesAt, DefinitionAt;
  }

  lemma WithoutRoles(db: Db, after: Db)
    requires Shaped(db, 4) && USERS_TABLE in db
    requires after == db[USERS_TABLE := Restricted(db[USERS_TABLE], SCOPED_USERS)] - {ROLES_TABLE}
    ensures Older(db, 4, after)
  {
    RestrictedDef(db[USERS_TABLE], SCOPED_USERS);
    hide Restricted;
    assert after.Keys == TablesAt(3) && TablesAt(3) <= db.Keys;
    forall t | t in after
      ensures after[t].def == DefinitionAt(t, 3)
      ensures (db[t].def == DefinitionAt(t, 3) && after[t] == db[t]) || after[t] == Restricted(db[t], DefinitionAt(t, 3))
    {
      if t != USERS_TABLE {
        assert db[t].def == DefinitionAt(t, 4);
      }
    }
    hide TablesAt, DefinitionAt;
  }

  lemma RowForgotten(row: Row, c: Name, v: Value, columns: set<Name>)
    requires row.Keys == columns && c !in columns
    ensures Projected(row[c := v], columns) == row
  {
  }

  lemma ColumnForgotten(table: Table, c: Name, v: Value, def: Definition)
    requires TableValid(table) && c !in table.def.columns
    ensures table == Restricted(Table(def, WithColumn(table.rows, c, v)), table.def)
  {
    var back := Restricted(Table(def, WithColumn(table.rows, c, v)), table.def);
    assert RowsFit(table.def, table.rows);
    hide TableValid, Projected;
    forall r | r in table.rows ensures back.rows[r] == table.rows[r] {
      assert RowFits(table.def.columns, table.rows[r]);
      RowForgotten(table.rows[r], c, v, table.def.columns.Keys);
    }
    assert back.rows == table.rows;
  }

  // Migrating up loses nothing: the older schema's part of the result is the database as it was.
  lemma UpKeepsData(db: Db, n: Level, d: Defaults)
    requires At(db, n) && n < 4
    ensures n > 1 ==> USERS_TABLE in db
    ensures Restrict(Upgraded(db, n, d), SchemaAt(n)) == db
  {
    hide Valid, Restricted, SchemaOf, Restrict, WithColumn, ExecAll, UpStatements, TablesAt, DefinitionAt, Upgraded, Shaped;
    UpSucceeds(db, n, d);
    Definitions(db, n);
    UsersForgotten(db, n, d);
    Kept(db, n, d);
    assert SchemaAt(n).Keys == TablesAt(n);
    RestrictIs(Upgraded(db, n, d), SchemaAt(n), db);
  }

  lemma UsersForgotten(db: Db, n: Level, d: Defaults)
    requires At(db, n)
    ensures n > 1 ==> USERS_TABLE in db
    ensures n == 2 ==> db[USERS_TABLE] == Restricted(Table(SCOPED_USERS, WithColumn(db[USERS_TABLE].rows, TENANT_ID, Val(d.id))), USERS)
    ensures n == 3 ==> db[USERS_TABLE] == Restricted(Table(USERS_WITH_ROLES, WithColumn(db[USERS_TABLE].rows, ROLE_ID, Null)), SCOPED_USERS)
  {
    hide Valid, At, Restricted, WithColumn, TableValid;
    Facts(db, n);
    if n == 2 {
      ValidTable(db, USERS_TABLE);
      ColumnForgotten(db[USERS_TABLE], TENANT_ID, Val(d.id), SCOPED_USERS);
    } else if n == 3 {
      ValidTable(db, USERS_TABLE);
      ColumnForgotten(db[USERS_TABLE], ROLE_ID, Null, USERS_WITH_ROLES);
    }
  }

  lemma Kept(db: Db, n: Level, d: Defaults)
    requires Shaped(db, n) && n < 4 && (n > 1 ==> USERS_TABLE in db)
    requires n == 2 ==> db[USERS_TABLE] == Restricted(Table(SCOPED_USERS, WithColumn(db[USERS_TABLE].rows, TENANT_ID, Val(d.id))), USERS)
    requires n == 3 ==> db[USERS_TABLE] == Restricted(Table(USERS_WITH_ROLES, WithColumn(db[USERS_TABLE].rows, ROLE_ID, Null)), SCOPED_USERS)
    ensures (var up := Upgraded(db, n, d);
             && db.Keys == TablesAt(n) && TablesAt(n) <= up.Keys
             && forall t :: t in db ==>
                  (up[t].def == DefinitionAt(t, n) && db[t] == up[t]) || db[t] == Restricted(up[t], DefinitionAt(t, n)))
  {
    hide Restricted, WithColumn, DefaultTenant;
  }

  // ---- Runs of migrations in last-in-first-out order ----

  /** The next migration up, the last one down, or any write that keeps the constraints. */
  datatype Move = Up(defaults: Defaults) | Down | Write(db: Db)

  function LevelAfter(n: int, move: Move): int {
    match move
    case Up(_) => n + 1
    case Down => n - 1
    case Write(_) => n
  }

  // The moves never go below the empty schema or above the last migration.
  ghost predicate Lifo(n: Level, moves: seq<Move>)
    decreases |moves|
  {
    moves == [] || (var next := LevelAfter(n, moves[0]);
                    0 <= next <= 4 && (moves[0].Write? ==> At(moves[0].db, n)) && Lifo(next, moves[1..]))
  }

  // One move, or None if the database refuses one of its statements.
  function Moved(db: Db, n: Level, move: Move): Option<Db>
    requires 0 <= LevelAfter(n, move) <= 4
  {
    match move
    case Up(d) => ExecAll(db, UpStatements(n, d))
    case Down => ExecAll(db, DownStatements(n))
    case Write(db') => Some(db')
  }

  ghost function Play(db: Db, n: Level, moves: seq<Move>): Option<Db>
    requires Lifo(n, moves)
    decreases |moves|
  {
    if moves == [] then Some(db)
    else
      var next := Moved(db, n, moves[0]);
      if next.None? then None else Play(next.value, LevelAfter(n, moves[0]), moves[1..])
  }

  function LevelAfterAll(n: int, moves: seq<Move>): int
    decreases |moves|
  {
    if moves == [] then n else LevelAfterAll(LevelAfter(n, moves[0]), moves[1..])
  }

  lemma MoveSucceeds(db: Db, n: Level, move: Move)
    requires At(db, n) && 0 <= LevelAfter(n, move) <= 4 && (move.Write? ==> At(move.db, n))
    ensures Moved(db, n, move).Some? && At(Moved(db, n, move).value, LevelAfter(n, move))
  {
    hide At, ExecAll, UpStatements, DownStatements, SchemaAt, Restrict, Upgraded;
    match move
    case Up(d) => UpSucceeds(db, n, d);
    case Down => DownSucceeds(db, n);
    case Write(_) =>
  }

  // Safety: however the migrations run up and down between writes, no statement is ever refused,
  // and the database always keeps the constraints of the schema it is at.
  lemma {:induction false} RunsSucceed(db: Db, n: Level, moves: seq<Move>)
    requires At(db, n) && Lifo(n, moves)
    ensures 0 <= LevelAfterAll(n, moves) <= 4
    ensures Play(db, n, moves).Some? && At(Play(db, n, moves).value, LevelAfterAll(n, moves))
    decreases |moves|
  {
    hide At, Moved;
    if moves != [] {
      MoveSucceeds(db, n, moves[0]);
      RunsSucceed(Moved(db, n, moves[0]).value, LevelAfter(n, moves[0]), moves[1..]);
    }
  }

  // Whatever was written meanwhile, going back down leaves exactly what the older schema holds of
  // it; with no writes, exactly the database as it was.
  lemma UpThenDown(db: Db, n: Level, d: Defaults)
    requires At(db, n) && n < 4
    ensures n > 1 ==> USERS_TABLE in db
    ensures ExecAll(Upgraded(db, n, d), DownStatements(n + 1)) == Some(db)
  {
    hide At, ExecAll, UpStatements, DownStatements, SchemaAt, Restrict, Upgraded;
    UpSucceeds(db, n, d);
    UpKeepsData(db, n, d);
    DownSucceeds(Upgraded(db, n, d), n + 1);
  }

  function Ups(ds: seq<Defaults>): seq<Move> {
    seq(|ds|, i requires 0 <= i < |ds| => Up(ds[i]))
  }

  function Downs(k: nat): seq<Move> {
    seq(k, _ => Down)
  }

  // Migrating up any number of times and reverting them all restores schema and rows.
  lemma {:induction false} RevertingRestores(db: Db, n: Level, ds: seq<Defaults>)
    requires At(db, n) && n + |ds| <= 4
    ensures Lifo(n, Ups(ds) + Downs(|ds|)) && Play(db, n, Ups(ds) + Downs(|ds|)) == Some(db)
    decreases |ds|
  {
    hide At, ExecAll, UpStatements, DownStatements, SchemaAt, Restrict, Upgraded;
    if ds == [] {
      assert Ups(ds) + Downs(|ds|) == [];
    } else {
      OneOut(ds);
      hide Ups, Downs, Play, Lifo, LevelAfterAll;
      var inner := Ups(ds[1..]) + Downs(|ds| - 1);
      UpSucceeds(db, n, ds[0]);
      UpThenDown(db, n, ds[0]);
      var up := Upgraded(db, n, ds[0]);
      RevertingRestores(up, n + 1, ds[1..]);
      BackAtLevel(n + 1, ds[1..]);
      OneMoreMove(up, n + 1, inner, Down);
      FirstMove(db, n, Up(ds[0]), inner + [Down], up);
    }
  }

  // The outermost up and the down that reverts it.
  lemma OneOut(ds: seq<Defaults>)
    requires ds != []
    ensures Ups(ds) + Downs(|ds|) == [Up(ds[0])] + ((Ups(ds[1..]) + Downs(|ds| - 1)) + [Down])
  {
  }

  lemma FirstMove(db: Db, n: Level, move: Move, rest: seq<Move>, next: Db)
    requires 0 <= LevelAfter(n, move) <= 4 && !move.Write? && Moved(db, n, move) == Some(next)
    requires Lifo(LevelAfter(n, move), rest)
    ensures Lifo(n, [move] + rest) && Play(db, n, [move] + rest) == Play(next, LevelAfter(n, move), rest)
  {
    hide Moved, At;
    assert ([move] + rest)[1..] == rest;
  }

  lemma {:induction false} BackAtLevel(n: int, ds: seq<Defaults>)
    ensures LevelAfterAll(n, Ups(ds) + Downs(|ds|)) == n
    decreases |ds|
  {
    var moves := Ups(ds) + Downs(|ds|);
    if ds == [] {
      assert moves == [];
    } else {
      var inner := Ups(ds[1..]) + Downs(|ds| - 1);
      assert moves == [Up(ds[0])] + (inner + [Down]);
      assert moves[0] == Up(ds[0]) && moves[1..] == inner + [Down];
      BackAtLevel(n + 1, ds[1..]);
      LevelOneMore(n + 1, inner, Down);
    }
  }

  lemma {:induction false} LevelOneMore(n: int, moves: seq<Move>, move: Move)
    ensures LevelAfterAll(n, moves + [move]) == LevelAfter(LevelAfterAll(n, moves), move)
    decreases |moves|
  {
    if moves == [] {
      assert (moves + [move])[1..] == [];
    } else {
      assert (moves + [move])[1..] == moves[1..] + [move];
      LevelOneMore(LevelAfter(n, moves[0]), moves[1..], move);
    }
  }

  lemma {:induction false} OneMoreMove(db: Db, n: Level, moves: seq<Move>, move: Move)
    requires Lifo(n, moves) && !move.Write?
    requires 0 <= LevelAfterAll(n, moves) <= 4 && 0 <= LevelAfter(LevelAfterAll(n, moves), move) <= 4
    requires Play(db, n, moves).Some?
    ensures Lifo(n, moves + [move])
    ensures Play(db, n, moves + [move]) == Moved(Play(db, n, moves).value, LevelAfterAll(n, moves), move)
    decreases |moves|
  {
    hide Moved, At;
    if moves == [] {
      assert (moves + [move])[1..] == [];
    } else {
      assert (moves + [move])[1..] == moves[1..] + [move];
      OneMoreMove(Moved(db, n, moves[0]).value, LevelAfter(n, moves[0]), moves[1..], move);
    }
  }
}
