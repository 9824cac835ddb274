/** What the schema of each level says of the rows: which columns a row has, which of them may be
    NULL, what is unique, and what refers to what. */
module MigratedRows {
  import opened Schema
  import opened Migrations

  // Every row has exactly these columns, and NULL in none of them but the optional ones.
  ghost predicate Columns(rows: map<RowKey, Row>, columns: set<Name>, optional: set<Name>) {
    forall r :: r in rows ==> rows[r].Keys == columns && forall c :: c in columns - optional ==> rows[r][c] != Null
  }

  predicate SameValue(rows: map<RowKey, Row>, r: RowKey, s: RowKey, column: Name) {
    && r in rows && s in rows && column in rows[r] && column in rows[s]
    && rows[r][column] != Null && rows[r][column] == rows[s][column]
  }

  // No two rows have the same value in this column.
  ghost predicate OnePer(rows: map<RowKey, Row>, column: Name) {
    forall r, s :: SameValue(rows, r, s, column) ==> r == s
  }

  lemma DistinctOnePer(rows: map<RowKey, Row>, column: Name)
    requires Distinct(rows, {column})
    ensures OnePer(rows, column)
  {
    forall r, s | SameValue(rows, r, s, column) ensures r == s {
      assert Same(rows[r], rows[s], {column});
    }
  }

  // A value of the column, where there is one, is the id of a row of the other table.
  ghost predicate Points(rows: map<RowKey, Row>, column: Name, target: map<RowKey, Row>) {
    forall r :: r in rows && column in rows[r] && rows[r][column] != Null ==>
      exists s :: s in target && ID in target[s] && target[s][ID] == rows[r][column]
  }

  lemma TableAt(db: Db, n: Level, t: Name)
    requires At(db, n) && t in TablesAt(n)
    ensures t in db && db[t].def == DefinitionAt(t, n) && TableValid(db[t])
  {
    Definitions(db, n);
    hide TableValid, References;
  }

  lemma RowsOf(table: Table, columns: set<Name>, optional: set<Name>)
    requires TableValid(table) && table.def.columns.Keys == columns
    requires forall c :: c in columns - optional ==> !table.def.columns[c].nullable
    ensures Columns(table.rows, columns, optional) && OnePer(table.rows, table.def.key)
  {
    DistinctOnePer(table.rows, table.def.key);
    forall r | r in table.rows ensures RowFits(table.def.columns, table.rows[r]) {
    }
    hide Distinct, OnePer;
  }

  lemma UniqueOf(table: Table, u: Name, column: Name)
    requires TableValid(table) && u in table.def.uniques && table.def.uniques[u] == {column}
    ensures OnePer(table.rows, column)
  {
    DistinctOnePer(table.rows, column);
    hide Distinct, OnePer, RowsFit, WellFormed;
  }

  // These columns, all NOT NULL but the optional ones, and this key.
  predicate Declares(def: Definition, columns: set<Name>, optional: set<Name>, key: Name) {
    && def.columns.Keys == columns && def.key == key
    && forall c :: c in columns ==> (def.columns[c].nullable <==> c in optional)
  }

  lemma FirstDeclares()
    ensures Declares(TASKS, {ID, TITLE, COMPLETED, CREATED_AT}, {}, ID)
    ensures Declares(PROCESSED_EVENTS, {EVENT_ID, EVENT_TYPE, PROCESSED_AT}, {}, EVENT_ID)
  {
  }

  function UserColumns(n: Level): set<Name> {
    {ID, USERNAME, PASSWORD_HASH, CREATED_AT} + (if n >= 3 then {TENANT_ID} else {}) + (if n == 4 then {ROLE_ID} else {})
  }

  lemma UsersDeclare()
    ensures Declares(USERS, UserColumns(2), {ROLE_ID}, ID)
    ensures USERS.uniques == map[UQ_USERNAME := {USERNAME}]
  {
  }

  lemma ScopedDeclare()
    ensures Declares(SCOPED_USERS, UserColumns(3), {ROLE_ID}, ID)
    ensures SCOPED_USERS.uniques == map[UQ_USERNAME := {USERNAME}]
  {
  }

  lemma WithRolesDeclare()
    ensures Declares(USERS_WITH_ROLES, UserColumns(4), {ROLE_ID}, ID)
    ensures USERS_WITH_ROLES.uniques == map[UQ_USERNAME := {USERNAME}]
  {
  }

  lemma LaterDeclare()
    ensures Declares(TENANTS, {ID, NAME, CREATED_AT}, {}, ID) && TENANTS.uniques == map[UQ_TENANT_NAME := {NAME}]
    ensures Declares(ROLES, {ID, TENANT_ID, NAME, PERMISSIONS, CREATED_AT}, {}, ID)
    ensures ROLES.uniques == map[UQ_ROLE_TENANT_NAME := {TENANT_ID, NAME}]
  {
  }

  // A task has an id of its own and a title.
  lemma TaskRows(db: Db, n: Level)
    requires At(db, n) && n >= 1
    ensures TASKS_TABLE in db
    ensures Columns(db[TASKS_TABLE].rows, {ID, TITLE, COMPLETED, CREATED_AT}, {}) && OnePer(db[TASKS_TABLE].rows, ID)
  {
    hide At, TableValid, Columns, OnePer;
    TableAt(db, n, TASKS_TABLE);
    FirstDeclares();
    RowsOf(db[TASKS_TABLE], {ID, TITLE, COMPLETED, CREATED_AT}, {});
  }

  // At most one row records an event.
  lemma EventRows(db: Db, n: Level)
    requires At(db, n) && n >= 1
    ensures EVENTS_TABLE in db
    ensures Columns(db[EVENTS_TABLE].rows, {EVENT_ID, EVENT_TYPE, PROCESSED_AT}, {}) && OnePer(db[EVENTS_TABLE].rows, EVENT_ID)
  {
    hide At, TableValid, Columns, OnePer;
    TableAt(db, n, EVENTS_TABLE);
    FirstDeclares();
    RowsOf(db[EVENTS_TABLE], {EVENT_ID, EVENT_TYPE, PROCESSED_AT}, {});
  }

  // A username is a user's own; from the third migration on every user has a tenant, and only from
  // the fourth on may have a role.
  lemma UserRowsAt(db: Db, n: Level)
    requires At(db, n) && n >= 2
    ensures USERS_TABLE in db
    ensures Columns(db[USERS_TABLE].rows, UserColumns(n), {ROLE_ID})
    ensures OnePer(db[USERS_TABLE].rows, ID) && OnePer(db[USERS_TABLE].rows, USERNAME)
  {
    hide At, TableValid, Columns, OnePer, UserColumns;
    TableAt(db, n, USERS_TABLE);
    UsersDeclare();
    ScopedDeclare();
    WithRolesDeclare();
    RowsOf(db[USERS_TABLE], UserColumns(n), {ROLE_ID});
    UniqueOf(db[USERS_TABLE], UQ_USERNAME, USERNAME);
  }

  lemma TenantRows(db: Db, n: Level)
    requires At(db, n) && n >= 3
    ensures TENANTS_TABLE in db
    ensures Columns(db[TENANTS_TABLE].rows, {ID, NAME, CREATED_AT}, {})
    ensures OnePer(db[TENANTS_TABLE].rows, ID) && OnePer(db[TENANTS_TABLE].rows, NAME)
  {
    hide At, TableValid, Columns, OnePer;
    TableAt(db, n, TENANTS_TABLE);
    LaterDeclare();
    RowsOf(db[TENANTS_TABLE], {ID, NAME, CREATED_AT}, {});
    UniqueOf(db[TENANTS_TABLE], UQ_TENANT_NAME, NAME);
  }

  // A tenant has at most one role of a name.
  lemma RoleRows(db: Db)
    requires At(db, 4)
    ensures ROLES_TABLE in db
    ensures Columns(db[ROLES_TABLE].rows, {ID, TENANT_ID, NAME, PERMISSIONS, CREATED_AT}, {}) && OnePer(db[ROLES_TABLE].rows, ID)
    ensures Distinct(db[ROLES_TABLE].rows, {TENANT_ID, NAME})
  {
    hide At, TableValid, Columns, OnePer, Distinct;
    TableAt(db, 4, ROLES_TABLE);
    LaterDeclare();
    RowsOf(db[ROLES_TABLE], {ID, TENANT_ID, NAME, PERMISSIONS, CREATED_AT}, {});
    NamesDistinct(db[ROLES_TABLE]);
  }

  lemma NamesDistinct(table: Table)
    requires TableValid(table) && table.def.uniques == map[UQ_ROLE_TENANT_NAME := {TENANT_ID, NAME}]
    ensures Distinct(table.rows, {TENANT_ID, NAME})
  {
    assert Distinct(table.rows, table.def.uniques[UQ_ROLE_TENANT_NAME]);
    hide Distinct, RowsFit, WellFormed;
  }

  lemma PointsTo(db: Db, t: Name, f: Name, fk: ForeignKey)
    requires Valid(db) && t in db && f in db[t].def.foreignKeys && db[t].def.foreignKeys[f] == fk && fk.referenced == ID
    ensures fk.table in db && Points(db[t].rows, fk.column, db[fk.table].rows)
  {
    assert Refers(db, db[t].rows, db[t].def.foreignKeys[f]);
    hide TableValid;
  }

  // Users and roles are of tenants that exist, and a user's role is a role that exists.
  lemma RowsPoint(db: Db, n: Level)
    requires At(db, n) && n >= 3
    ensures USERS_TABLE in db && TENANTS_TABLE in db && Points(db[USERS_TABLE].rows, TENANT_ID, db[TENANTS_TABLE].rows)
    ensures n == 4 ==>
              && ROLES_TABLE in db && Points(db[USERS_TABLE].rows, ROLE_ID, db[ROLES_TABLE].rows)
              && Points(db[ROLES_TABLE].rows, TENANT_ID, db[TENANTS_TABLE].rows)
  {
    TableAt(db, n, USERS_TABLE);
    TableAt(db, n, TENANTS_TABLE);
    hide Valid, TableValid, SchemaOf, SchemaAt, Points;
    PointsTo(db, USERS_TABLE, FK_USER_TENANT, USER_TENANT);
    if n == 4 {
      TableAt(db, n, ROLES_TABLE);
      PointsTo(db, USERS_TABLE, FK_USER_ROLE, USER_ROLE);
      PointsTo(db, ROLES_TABLE, FK_ROLE_TENANT, ROLE_TENANT);
    }
  }
}
