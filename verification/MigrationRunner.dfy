/** The four migration classes as the program writes them: one awaited statement after another. */
module MigrationRunner {
  import opened Collections
  import opened Schema
  import opened Migrations

  class QueryRunner {
    var db: Db

    constructor ()
      ensures db == map[]
    {
      db := map[];
    }

    // false: the database refused the statement, which throws.
    method Query(statement: Statement) returns (ok: bool)
      modifies this
      ensures ok <==> Exec(old(db), statement).Some?
      ensures db == if ok then Exec(old(db), statement).value else old(db)
    {
      hide Exec;
      var result := Exec(db, statement);
      ok := result.Some?;
      if ok {
        db := result.value;
      }
    }
  }

  // Where a list that is not refused stands after k statements, the next one is not refused.
  lemma NextStatement(db: Db, l: seq<Statement>, k: nat)
    requires k < |l| && ExecAll(db, l).Some?
    ensures ExecTo(db, l, k).Some? && ExecTo(db, l, k + 1).Some?
    ensures Exec(ExecTo(db, l, k).value, l[k]) == ExecTo(db, l, k + 1)
  {
    hide Exec;
    NoneRefused(db, l, k, |l|);
    NoneRefused(db, l, k + 1, |l|);
  }

  lemma WholeList(db: Db, l: seq<Statement>)
    ensures ExecTo(db, l, |l|) == ExecAll(db, l)
  {
  }

  lemma FirstStatement(db: Db, l: seq<Statement>)
    ensures ExecTo(db, l, 0) == Some(db)
  {
  }

  // ---- What the four databases are, table by table ----

  predicate OthersSame(before: Db, after: Db, tables: set<Name>) {
    forall t :: t in before && t !in tables ==> t in after && after[t] == before[t]
  }

  predicate OnlyTenant(rows: map<RowKey, Row>, id: string, name: string) {
    && rows.Keys == {id} && ID in rows[id] && rows[id][ID] == Val(id) && NAME in rows[id] && rows[id][NAME] == Val(name)
  }

  // Every row has this value in the new column and is otherwise as it was.
  predicate EachGets(before: map<RowKey, Row>, after: map<RowKey, Row>, column: Name, value: Value) {
    after.Keys == before.Keys && forall r :: r in before ==> after[r] == before[r][column := value]
  }

  lemma NothingAtFirst(db: Db)
    requires At(db, 0)
    ensures (var up := TablesCreated(db);
             && up.Keys == {TASKS_TABLE, EVENTS_TABLE}
             && up[TASKS_TABLE].rows == map[] && up[EVENTS_TABLE].rows == map[])
  {
    Definitions(db, 0);
    hide Valid;
  }

  lemma UsersAppear(db: Db)
    ensures (var up := UsersCreated(db);
             USERS_TABLE in up && up[USERS_TABLE].rows == map[] && OthersSame(db, up, {USERS_TABLE}))
  {
  }

  lemma OneStatement(d: Defaults)
    ensures UpStatements(1, d) == [Create(USERS_TABLE, USERS)]
  {
  }

  lemma UsersThere(db: Db, n: Level)
    requires At(db, n) && n >= 2
    ensures USERS_TABLE in db
  {
    Facts(db, n);
    hide At;
  }

  lemma TenantAppears(db: Db, d: Defaults)
    requires USERS_TABLE in db
    ensures (var up := UsersScoped(db, d);
             && OthersSame(db, up, {USERS_TABLE, TENANTS_TABLE})
             && TENANTS_TABLE in up && up[TENANTS_TABLE].rows == map[d.id := DefaultTenant(d)]
             && USERS_TABLE in up && EachGets(db[USERS_TABLE].rows, up[USERS_TABLE].rows, TENANT_ID, Val(d.id)))
  {
    hide DefaultTenant;
  }

  lemma DefaultIsOnly(d: Defaults)
    ensures OnlyTenant(map[d.id := DefaultTenant(d)], d.id, "default")
  {
  }

  lemma RolesAppear(db: Db)
    requires USERS_TABLE in db
    ensures (var up := RolesCreated(db);
             && OthersSame(db, up, {USERS_TABLE, ROLES_TABLE}) && ROLES_TABLE in up && up[ROLES_TABLE].rows == map[]
             && USERS_TABLE in up && EachGets(db[USERS_TABLE].rows, up[USERS_TABLE].rows, ROLE_ID, Null))
  {
  }

  class InitSchema {
    constructor () {}

    method Up(q: QueryRunner) returns (ok: bool)
      requires At(q.db, 0)
      modifies q
      ensures ok && q.db == TablesCreated(old(q.db)) && At(q.db, 1)
      ensures q.db.Keys == {TASKS_TABLE, EVENTS_TABLE} && q.db[TASKS_TABLE].rows == map[] && q.db[EVENTS_TABLE].rows == map[]
    {
      NothingAtFirst(q.db);
      ghost var db, d := q.db, Defaults("", "");
      ghost var l := UpStatements(0, d);
      hide Exec, At, ExecTo, TablesCreated;
      UpSucceeds(db, 0, d);
      FirstStatement(db, l);
      NextStatement(db, l, 0);
      NextStatement(db, l, 1);
      ok := q.Query(Create(TASKS_TABLE, TASKS));
      if ok {
        ok := q.Query(Create(EVENTS_TABLE, PROCESSED_EVENTS));
      }
    }

    method Down(q: QueryRunner) returns (ok: bool)
      requires At(q.db, 1)
      modifies q
      ensures ok && q.db == Restrict(old(q.db), SchemaAt(0)) && At(q.db, 0)
    {
      ghost var db, l := q.db, DownStatements(1);
      hide Exec, ExecAll, At, ExecTo, Restrict, SchemaAt;
      DownSucceeds(db, 1);
      WholeList(db, l);
      FirstStatement(db, l);
      NextStatement(db, l, 0);
      NextStatement(db, l, 1);
      ok := q.Query(DropTable(EVENTS_TABLE));
      if ok {
        ok := q.Query(DropTable(TASKS_TABLE));
      }
    }
  }

  class CreateUsers {
    constructor () {}

    method Up(q: QueryRunner) returns (ok: bool)
      requires At(q.db, 1)
      modifies q
      ensures ok && q.db == UsersCreated(old(q.db)) && At(q.db, 2)
      ensures USERS_TABLE in q.db && q.db[USERS_TABLE].rows == map[] && OthersSame(old(q.db), q.db, {USERS_TABLE})
    {
      hide Exec, ExecAll, At, ExecTo, UsersCreated, UpStatements, OthersSame;
      UsersAppear(q.db);
      ghost var db, d := q.db, Defaults("", "");
      ghost var l := UpStatements(1, d);
      OneStatement(d);
      UpSucceeds(db, 1, d);
      WholeList(db, l);
      FirstStatement(db, l);
      NextStatement(db, l, 0);
      ok := q.Query(Create(USERS_TABLE, USERS));
    }

    method Down(q: QueryRunner) returns (ok: bool)
      requires At(q.db, 2)
      modifies q
      ensures ok && q.db == Restrict(old(q.db), SchemaAt(1)) && At(q.db, 1)
    {
      ghost var db, l := q.db, DownStatements(2);
      hide Exec, ExecAll, At, ExecTo, Restrict, SchemaAt;
      DownSucceeds(db, 2);
      WholeList(db, l);
      FirstStatement(db, l);
      NextStatement(db, l, 0);
      ok := q.Query(DropTable(USERS_TABLE));
    }
  }

  lemma SixStatements(d: Defaults)
    ensures |UpStatements(2, d)| == 6
  {
  }

  class CreateTenantsAndScopeUsers {
    constructor () {}

    // d is the id and the time the database generates for the default tenant.
    method Up(q: QueryRunner, d: Defaults) returns (ok: bool)
      requires At(q.db, 2)
      modifies q
      ensures USERS_TABLE in old(q.db)
      ensures ok && q.db == UsersScoped(old(q.db), d) && At(q.db, 3)
      ensures OthersSame(old(q.db), q.db, {USERS_TABLE, TENANTS_TABLE})
      ensures TENANTS_TABLE in q.db && OnlyTenant(q.db[TENANTS_TABLE].rows, d.id, "default")
      ensures USERS_TABLE in q.db && EachGets(old(q.db)[USERS_TABLE].rows, q.db[USERS_TABLE].rows, TENANT_ID, Val(d.id))
    {
      UsersThere(q.db, 2);
      TenantAppears(q.db, d);
      DefaultIsOnly(d);
      ghost var db, l := q.db, UpStatements(2, d);
      hide Exec, ExecAll, At, ExecTo, UsersScoped, UpStatements, OthersSame, OnlyTenant, EachGets, DefaultTenant;
      UpSucceeds(db, 2, d);
      WholeList(db, l);
      SixStatements(d);
      FirstStatement(db, l);
      ok := CreateDefaultTenant(q, d, db, l);
      if !ok { return; }
      ok := AddTenantId(q, d, db, l);
      if !ok { return; }
      ok := RequireTenant(q, d, db, l);
    }

    // The table and its one row.
    method CreateDefaultTenant(q: QueryRunner, d: Defaults, ghost db: Db, ghost l: seq<Statement>) returns (ok: bool)
      requires l == UpStatements(2, d) && ExecAll(db, l).Some? && Some(q.db) == ExecTo(db, l, 0)
      modifies q
      ensures ok && Some(q.db) == ExecTo(db, l, 2)
    {
      hide Exec, ExecAll, ExecTo;
      NextStatement(db, l, 0);
      NextStatement(db, l, 1);
      ok := q.Query(Create(TENANTS_TABLE, TENANTS));
      if !ok { return; }
      ok := q.Query(Insert(TENANTS_TABLE, d.id, DefaultTenant(d)));
    }

    // A nullable column first, then the backfill.
    method AddTenantId(q: QueryRunner, d: Defaults, ghost db: Db, ghost l: seq<Statement>) returns (ok: bool)
      requires l == UpStatements(2, d) && ExecAll(db, l).Some? && Some(q.db) == ExecTo(db, l, 2)
      modifies q
      ensures ok && Some(q.db) == ExecTo(db, l, 4)
    {
      hide Exec, ExecAll, ExecTo;
      NextStatement(db, l, 2);
      NextStatement(db, l, 3);
      ok := q.Query(AddColumn(USERS_TABLE, TENANT_ID, Optional(Uuid)));
      if !ok { return; }
      ok := q.Query(SetFromLookup(USERS_TABLE, TENANT_ID, TENANTS_TABLE, ID, NAME, "default"));
    }

    // Then NOT NULL and the foreign key.
    method RequireTenant(q: QueryRunner, d: Defaults, ghost db: Db, ghost l: seq<Statement>) returns (ok: bool)
      requires l == UpStatements(2, d) && ExecAll(db, l).Some? && Some(q.db) == ExecTo(db, l, 4)
      modifies q
      ensures ok && Some(q.db) == ExecTo(db, l, 6)
    {
      hide Exec, ExecAll, ExecTo;
      NextStatement(db, l, 4);
      NextStatement(db, l, 5);
      ok := q.Query(ChangeColumn(USERS_TABLE, TENANT_ID, Required(Uuid)));
      if !ok { return; }
      ok := q.Query(CreateForeignKey(USERS_TABLE, FK_USER_TENANT, USER_TENANT));
    }

    method Down(q: QueryRunner) returns (ok: bool)
      requires At(q.db, 3)
      modifies q
      ensures ok && q.db == Restrict(old(q.db), SchemaAt(2)) && At(q.db, 2)
    {
      ghost var db, l := q.db, DownStatements(3);
      hide Exec, ExecAll, At, ExecTo, Restrict, SchemaAt;
      DownSucceeds(db, 3);
      WholeList(db, l);
      FirstStatement(db, l);
      NextStatement(db, l, 0);
      NextStatement(db, l, 1);
      NextStatement(db, l, 2);
      ok := q.Query(DropForeignKey(USERS_TABLE, FK_USER_TENANT));
      if !ok { return; }
      ok := q.Query(DropColumn(USERS_TABLE, TENANT_ID));
      if !ok { return; }
      ok := q.Query(DropTable(TENANTS_TABLE));
    }
  }

  lemma FiveStatementsUp(d: Defaults)
    ensures |UpStatements(3, d)| == 5
  {
  }

  lemma FiveStatements()
    ensures |DownStatements(4)| == 5
  {
  }

  class CreateRoles {
    constructor () {}

    method Up(q: QueryRunner) returns (ok: bool)
      requires At(q.db, 3)
      modifies q
      ensures USERS_TABLE in old(q.db)
      ensures ok && q.db == RolesCreated(old(q.db)) && At(q.db, 4)
      ensures OthersSame(old(q.db), q.db, {USERS_TABLE, ROLES_TABLE}) && ROLES_TABLE in q.db && q.db[ROLES_TABLE].rows == map[]
      ensures USERS_TABLE in q.db && EachGets(old(q.db)[USERS_TABLE].rows, q.db[USERS_TABLE].rows, ROLE_ID, Null)
    {
      UsersThere(q.db, 3);
      RolesAppear(q.db);
      ghost var db, d := q.db, Defaults("", "");
      ghost var l := UpStatements(3, d);
      hide Exec, ExecAll, At, ExecTo, RolesCreated, UpStatements, EachGets, OthersSame;
      UpSucceeds(db, 3, d);
      WholeList(db, l);
      FiveStatementsUp(d);
      FirstStatement(db, l);
      ok := CreateRolesTable(q, d, db, l);
      if ok {
        ok := AddRoleId(q, d, db, l);
      }
    }

    // The table, then its constraints.
    method CreateRolesTable(q: QueryRunner, ghost d: Defaults, ghost db: Db, ghost l: seq<Statement>) returns (ok: bool)
      requires l == UpStatements(3, d) && ExecAll(db, l).Some? && Some(q.db) == ExecTo(db, l, 0)
      modifies q
      ensures ok && Some(q.db) == ExecTo(db, l, 3)
    {
      hide Exec, ExecAll, ExecTo;
      NextStatement(db, l, 0);
      NextStatement(db, l, 1);
      NextStatement(db, l, 2);
      ok := q.Query(Create(ROLES_TABLE, NEW_ROLES));
      if !ok { return; }
      ok := q.Query(CreateForeignKey(ROLES_TABLE, FK_ROLE_TENANT, ROLE_TENANT));
      if !ok { return; }
      ok := q.Query(CreateUnique(ROLES_TABLE, UQ_ROLE_TENANT_NAME, {TENANT_ID, NAME}));
    }

    // The users' side.
    method AddRoleId(q: QueryRunner, ghost d: Defaults, ghost db: Db, ghost l: seq<Statement>) returns (ok: bool)
      requires l == UpStatements(3, d) && ExecAll(db, l).Some? && Some(q.db) == ExecTo(db, l, 3)
      modifies q
      ensures ok && Some(q.db) == ExecTo(db, l, 5)
    {
      hide Exec, ExecAll, ExecTo;
      NextStatement(db, l, 3);
      NextStatement(db, l, 4);
      ok := q.Query(AddColumn(USERS_TABLE, ROLE_ID, Optional(Uuid)));
      if !ok { return; }
      ok := q.Query(CreateForeignKey(USERS_TABLE, FK_USER_ROLE, USER_ROLE));
    }

    method Down(q: QueryRunner) returns (ok: bool)
      requires At(q.db, 4)
      modifies q
      ensures ok && q.db == Restrict(old(q.db), SchemaAt(3)) && At(q.db, 3)
    {
      ghost var db, l := q.db, DownStatements(4);
      hide Exec, ExecAll, At, ExecTo, Restrict, SchemaAt, DownStatements;
      DownSucceeds(db, 4);
      WholeList(db, l);
      FiveStatements();
      FirstStatement(db, l);
      ok := DropRoleId(q, db, l);
      if ok {
        ok := DropRoles(q, db, l);
      }
    }

    // The users' side: the foreign key, then its column.
    method DropRoleId(q: QueryRunner, ghost db: Db, ghost l: seq<Statement>) returns (ok: bool)
      requires l == DownStatements(4) && ExecAll(db, l).Some? && Some(q.db) == ExecTo(db, l, 0)
      modifies q
      ensures ok && Some(q.db) == ExecTo(db, l, 2)
    {
      hide Exec, ExecAll, ExecTo;
      NextStatement(db, l, 0);
      NextStatement(db, l, 1);
      ok := q.Query(DropForeignKey(USERS_TABLE, FK_USER_ROLE));
      if ok {
        ok := q.Query(DropColumn(USERS_TABLE, ROLE_ID));
      }
    }

    // The roles' side: the constraints, then the table.
    method DropRoles(q: QueryRunner, ghost db: Db, ghost l: seq<Statement>) returns (ok: bool)
      requires l == DownStatements(4) && ExecAll(db, l).Some? && Some(q.db) == ExecTo(db, l, 2)
      modifies q
      ensures ok && Some(q.db) == ExecTo(db, l, 5)
    {
      hide Exec, ExecAll, ExecTo;
      NextStatement(db, l, 2);
      NextStatement(db, l, 3);
      NextStatement(db, l, 4);
      ok := q.Query(DropUnique(ROLES_TABLE, UQ_ROLE_TENANT_NAME));
      if !ok { return; }
      ok := q.Query(DropForeignKey(ROLES_TABLE, FK_ROLE_TENANT));
      if !ok { return; }
      ok := q.Query(DropTable(ROLES_TABLE));
    }
  }
}
