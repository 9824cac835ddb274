/** Tables with their constraints, and the statements the migrations issue. The database refuses
    a statement that would leave a constraint violated. */
module Schema {
  import opened Collections

  // A table, column or constraint name. Names are numbered, since all that matters of them is
  // whether two are the same.
  type Name = nat

  type RowKey = string

  datatype Value = Null | Val(text: string)

  type Row = map<Name, Value>

  datatype Kind = Uuid | Varchar | Text | Boolean | Timestamp

  datatype Default = NoDefault | NewUuid | CurrentTime | False

  datatype Column = Column(kind: Kind, nullable: bool, default: Default)

  datatype ForeignKey = ForeignKey(column: Name, table: Name, referenced: Name)

  datatype Definition = Definition(
    columns: map<Name, Column>, key: Name, uniques: map<Name, set<Name>>, foreignKeys: map<Name, ForeignKey>)

  datatype Table = Table(def: Definition, rows: map<RowKey, Row>)

  type Db = map<Name, Table>

  type Schema = map<Name, Definition>

  function SchemaOf(db: Db): Schema {
    map t | t in db :: db[t].def
  }

  // ---- Constraints ----

  predicate WellFormed(def: Definition) {
    && def.key in def.columns && !def.columns[def.key].nullable
    && (forall u :: u in def.uniques ==> def.uniques[u] <= def.columns.Keys)
    && (forall f :: f in def.foreignKeys ==> def.foreignKeys[f].column in def.columns)
  }

  predicate RowFits(columns: map<Name, Column>, row: Row) {
    row.Keys == columns.Keys && forall c :: c in columns && !columns[c].nullable ==> row[c] != Null
  }

  predicate RowsFit(def: Definition, rows: map<RowKey, Row>) {
    forall r :: r in rows ==> RowFits(def.columns, rows[r])
  }

  // Two rows with the same values in these columns, none of them NULL.
  predicate Same(a: Row, b: Row, columns: set<Name>) {
    forall c :: c in columns ==> c in a && c in b && a[c] == b[c] && a[c] != Null
  }

  predicate Distinct(rows: map<RowKey, Row>, columns: set<Name>) {
    forall r, s :: r in rows && s in rows && Same(rows[r], rows[s], columns) ==> r == s
  }

  predicate TableValid(table: Table) {
    && WellFormed(table.def) && RowsFit(table.def, table.rows)
    && Distinct(table.rows, {table.def.key})
    && (forall u :: u in table.def.uniques ==> Distinct(table.rows, table.def.uniques[u]))
  }

  predicate Present(rows: map<RowKey, Row>, column: Name, value: Value) {
    exists s :: s in rows && column in rows[s] && rows[s][column] == value
  }

  predicate RefersTo(target: Table, rows: map<RowKey, Row>, fk: ForeignKey) {
    && fk.referenced in target.def.columns
    && (forall r :: r in rows && fk.column in rows[r] && rows[r][fk.column] != Null ==>
          Present(target.rows, fk.referenced, rows[r][fk.column]))
  }

  predicate Refers(db: Db, rows: map<RowKey, Row>, fk: ForeignKey) {
    fk.table in db && RefersTo(db[fk.table], rows, fk)
  }

  predicate References(db: Db) {
    forall t, f :: t in db && f in db[t].def.foreignKeys ==> Refers(db, db[t].rows, db[t].def.foreignKeys[f])
  }

  predicate Valid(db: Db) {
    (forall t :: t in db ==> TableValid(db[t])) && References(db)
  }

  // ---- Statements ----

  datatype Statement =
    | CreateTable(table: Name, columns: map<Name, Column>, key: Name, uniques: map<Name, set<Name>>)
    | DropTable(table: Name)
    | Insert(table: Name, id: RowKey, row: Row)
    | AddColumn(table: Name, column: Name, spec: Column)
    | ChangeColumn(table: Name, column: Name, spec: Column)
    | DropColumn(table: Name, column: Name)
    | SetFromLookup(table: Name, column: Name, source: Name, wanted: Name, filter: Name, value: string)
    | CreateForeignKey(table: Name, name: Name, fk: ForeignKey)
    | DropForeignKey(table: Name, name: Name)
    | CreateUnique(table: Name, name: Name, unique: set<Name>)
    | DropUnique(table: Name, name: Name)

  // A column added to rows that are already there is NULL in them.
  function Added(table: Table, column: Name, spec: Column): Table {
    Table(table.def.(columns := table.def.columns[column := spec]),
          map r | r in table.rows :: table.rows[r][column := Null])
  }

  // Dropping a column drops the constraints on it.
  function Dropped(table: Table, column: Name): Table {
    Table(Definition(table.def.columns - {column}, table.def.key,
                     map u | u in table.def.uniques && column !in table.def.uniques[u] :: table.def.uniques[u],
                     map f | f in table.def.foreignKeys && table.def.foreignKeys[f].column != column :: table.def.foreignKeys[f]),
          map r | r in table.rows :: table.rows[r] - {column})
  }

  function Filled(table: Table, column: Name, value: Value): Table {
    table.(rows := map r | r in table.rows :: table.rows[r][column := value])
  }

  // The rows a scalar subquery selects.
  function Matching(rows: map<RowKey, Row>, filter: Name, value: string): set<RowKey> {
    set r | r in rows && filter in rows[r] && rows[r][filter] == Val(value)
  }

  // What a statement needs to be there, or not to be.
  predicate Applicable(db: Db, st: Statement) {
    match st
    case CreateTable(t, _, _, _) => t !in db
    case DropTable(t) => t in db
    case Insert(t, id, _) => t in db && id !in db[t].rows
    case AddColumn(t, c, spec) => t in db && c !in db[t].def.columns
    case ChangeColumn(t, c, spec) => t in db && c in db[t].def.columns && db[t].def.columns[c].kind == spec.kind
    case DropColumn(t, c) => t in db && c in db[t].def.columns && c != db[t].def.key
    case SetFromLookup(t, c, source, wanted, filter, value) =>
      && t in db && c in db[t].def.columns && source in db
      && wanted in db[source].def.columns && filter in db[source].def.columns
      && (forall r, s :: r in Matching(db[source].rows, filter, value) && s in Matching(db[source].rows, filter, value)
            ==> r == s)
    case CreateForeignKey(t, name, fk) =>
      t in db && name !in db[t].def.foreignKeys && fk.table in db
      && (fk.referenced == db[fk.table].def.key || exists u :: u in db[fk.table].def.uniques && db[fk.table].def.uniques[u] == {fk.referenced})
    case DropForeignKey(t, name) => t in db && name in db[t].def.foreignKeys
    case CreateUnique(t, name, _) => t in db && name !in db[t].def.uniques
    case DropUnique(t, name) => t in db && name in db[t].def.uniques
  }

  // The value of the scalar subquery: NULL if no row matches.
  function Looked(rows: map<RowKey, Row>, wanted: Name, filter: Name, value: string): Value
    requires forall r, s :: r in Matching(rows, filter, value) && s in Matching(rows, filter, value) ==> r == s
  {
    var found := Matching(rows, filter, value);
    if found == {} then Null
    else
      var r :| r in found;
      if wanted in rows[r] then rows[r][wanted] else Null
  }

  function Effect(db: Db, st: Statement): Db
    requires Applicable(db, st)
  {
    match st
    case CreateTable(t, columns, key, uniques) => db[t := Table(Definition(columns, key, uniques, map[]), map[])]
    case DropTable(t) => db - {t}
    case Insert(t, id, row) => db[t := db[t].(rows := db[t].rows[id := row])]
    case AddColumn(t, c, spec) => db[t := Added(db[t], c, spec)]
    case ChangeColumn(t, c, spec) => db[t := db[t].(def := db[t].def.(columns := db[t].def.columns[c := spec]))]
    case DropColumn(t, c) => db[t := Dropped(db[t], c)]
    case SetFromLookup(t, c, source, wanted, filter, value) =>
      db[t := Filled(db[t], c, Looked(db[source].rows, wanted, filter, value))]
    case CreateForeignKey(t, name, fk) =>
      db[t := db[t].(def := db[t].def.(foreignKeys := db[t].def.foreignKeys[name := fk]))]
    case DropForeignKey(t, name) =>
      db[t := db[t].(def := db[t].def.(foreignKeys := db[t].def.foreignKeys - {name}))]
    case CreateUnique(t, name, unique) =>
      db[t := db[t].(def := db[t].def.(uniques := db[t].def.uniques[name := unique]))]
    case DropUnique(t, name) =>
      db[t := db[t].(def := db[t].def.(uniques := db[t].def.uniques - {name}))]
  }

  // None: the database refuses the statement.
  function Exec(db: Db, st: Statement): Option<Db> {
    if Applicable(db, st) && Valid(Effect(db, st)) then Some(Effect(db, st)) else None
  }

  // After the first n statements of a list, if none of them is refused.
  function ExecTo(db: Db, statements: seq<Statement>, n: nat): Option<Db>
    requires n <= |statements|
  {
    if n == 0 then Some(db)
    else
      var before := ExecTo(db, statements, n - 1);
      if before.None? then None else Exec(before.value, statements[n - 1])
  }

  function ExecAll(db: Db, statements: seq<Statement>): Option<Db> {
    ExecTo(db, statements, |statements|)
  }

  lemma {:induction false} NoneRefused(db: Db, statements: seq<Statement>, k: nat, n: nat)
    requires k <= n <= |statements| && ExecTo(db, statements, n).Some?
    ensures ExecTo(db, statements, k).Some?
    decreases n
  {
    hide Exec;
    if k < n {
      NoneRefused(db, statements, k, n - 1);
    }
  }

  // What is left of the rows when the schema goes back to an older one.
  function Projected(row: Row, columns: set<Name>): Row {
    map c | c in row && c in columns :: row[c]
  }

  function Restricted(table: Table, def: Definition): Table {
    Table(def, map r | r in table.rows :: Projected(table.rows[r], def.columns.Keys))
  }

  function Restrict(db: Db, schema: Schema): Db {
    map t | t in db && t in schema :: Restricted(db[t], schema[t])
  }

  // ---- When a statement keeps the constraints ----

  // Nothing refers to column c of table t.
  predicate Unreferenced(db: Db, t: Name, c: Name) {
    forall s, f :: s in db && f in db[s].def.foreignKeys ==>
      db[s].def.foreignKeys[f].table != t || db[s].def.foreignKeys[f].referenced != c
  }

  // The same rows, but for column c.
  predicate Alike(a: map<RowKey, Row>, b: map<RowKey, Row>, c: Name) {
    && a.Keys == b.Keys
    && (forall r :: r in a ==> a[r] - {c} == b[r] - {c})
  }

  lemma PresentAlike(a: map<RowKey, Row>, b: map<RowKey, Row>, c: Name, column: Name, value: Value)
    requires Alike(a, b, c) && column != c && Present(a, column, value)
    ensures Present(b, column, value)
  {
    var s :| s in a && column in a[s] && a[s][column] == value;
    assert column in a[s] - {c} && (a[s] - {c})[column] == value;
    assert column in b[s] - {c};
    assert s in b && column in b[s] && b[s][column] == value;
  }

  lemma SourceAlike(target: Table, rows: map<RowKey, Row>, rows': map<RowKey, Row>, fk: ForeignKey, c: Name)
    requires RefersTo(target, rows, fk) && Alike(rows, rows', c) && fk.column != c
    ensures RefersTo(target, rows', fk)
  {
    forall r | r in rows' && fk.column in rows'[r] && rows'[r][fk.column] != Null
      ensures Present(target.rows, fk.referenced, rows'[r][fk.column])
    {
      assert fk.column in rows'[r] - {c};
      assert fk.column in rows[r] - {c};
      assert rows[r][fk.column] == (rows[r] - {c})[fk.column] == rows'[r][fk.column];
    }
  }

  lemma TargetAlike(target: Table, target': Table, rows: map<RowKey, Row>, fk: ForeignKey, c: Name)
    requires RefersTo(target, rows, fk) && Alike(target.rows, target'.rows, c) && fk.referenced != c
    requires target.def.columns.Keys - {c} <= target'.def.columns.Keys
    ensures RefersTo(target', rows, fk)
  {
    assert fk.referenced in target.def.columns.Keys - {c};
    forall r | r in rows && fk.column in rows[r] && rows[r][fk.column] != Null
      ensures Present(target'.rows, fk.referenced, rows[r][fk.column])
    {
      PresentAlike(target.rows, target'.rows, c, fk.referenced, rows[r][fk.column]);
    }
  }

  // A key of the new table is one of the old table's, or holds outright.
  predicate KeyKept(db: Db, t: Name, table: Table, c: Name, fk: ForeignKey)
    requires t in db
  {
    || (fk.column != c && exists f :: f in db[t].def.foreignKeys && db[t].def.foreignKeys[f] == fk)
    || Refers(db[t := table], table.rows, fk)
  }

  // A table may be replaced by one whose own constraints hold and whose rows differ only in a
  // column that nothing refers to.
  lemma Replaced(db: Db, t: Name, table: Table, c: Name)
    requires Valid(db) && t in db && TableValid(table) && Alike(db[t].rows, table.rows, c)
    requires Unreferenced(db[t := table], t, c)
    requires db[t].def.columns.Keys - {c} <= table.def.columns.Keys
    requires forall f :: f in table.def.foreignKeys ==> KeyKept(db, t, table, c, table.def.foreignKeys[f])
    ensures Valid(db[t := table])
  {
    var db' := db[t := table];
    hide RefersTo, Alike, TableValid, Unreferenced;
    forall s, f | s in db' && f in db'[s].def.foreignKeys ensures Refers(db', db'[s].rows, db'[s].def.foreignKeys[f]) {
      var fk := db'[s].def.foreignKeys[f];
      if s == t {
        assert KeyKept(db, t, table, c, fk);
        if !Refers(db', table.rows, fk) {
          var g :| g in db[t].def.foreignKeys && db[t].def.foreignKeys[g] == fk;
          assert Refers(db, db[t].rows, db[t].def.foreignKeys[g]);
          SourceAlike(db[fk.table], db[t].rows, table.rows, fk, c);
          TargetReplaced(db, t, table, c, s, f);
        }
      } else {
        assert Refers(db, db[s].rows, db[s].def.foreignKeys[f]);
        TargetReplaced(db, t, table, c, s, f);
      }
    }
  }

  lemma TargetReplaced(db: Db, t: Name, table: Table, c: Name, s: Name, f: Name)
    requires t in db && Alike(db[t].rows, table.rows, c) && Unreferenced(db[t := table], t, c)
    requires db[t].def.columns.Keys - {c} <= table.def.columns.Keys
    requires s in db[t := table] && f in db[t := table][s].def.foreignKeys
    requires Refers(db, db[t := table][s].rows, db[t := table][s].def.foreignKeys[f])
    ensures Refers(db[t := table], db[t := table][s].rows, db[t := table][s].def.foreignKeys[f])
  {
    hide RefersTo, Alike;
    var db' := db[t := table];
    var fk := db'[s].def.foreignKeys[f];
    assert db'[s].def.foreignKeys[f].table != t || db'[s].def.foreignKeys[f].referenced != c;
    if fk.table == t {
      TargetAlike(db[t], table, db'[s].rows, fk, c);
    }
  }

  // The same for a table that keeps its rows and its columns.
  lemma Redefined(db: Db, t: Name, def: Definition)
    requires Valid(db) && t in db && TableValid(Table(def, db[t].rows))
    requires db[t].def.columns.Keys <= def.columns.Keys
    requires forall f :: f in def.foreignKeys ==>
               (f in db[t].def.foreignKeys && db[t].def.foreignKeys[f] == def.foreignKeys[f])
               || Refers(db, db[t].rows, def.foreignKeys[f])
    ensures Valid(db[t := db[t].(def := def)])
  {
    var db' := db[t := db[t].(def := def)];
    hide TableValid, Present;
    forall s, f | s in db' && f in db'[s].def.foreignKeys ensures Refers(db', db'[s].rows, db'[s].def.foreignKeys[f]) {
      var fk := db'[s].def.foreignKeys[f];
      if s != t || (f in db[t].def.foreignKeys && db[t].def.foreignKeys[f] == fk) {
        assert Refers(db, db[s].rows, db[s].def.foreignKeys[f]);
      }
      assert Refers(db, db[s].rows, fk);
    }
  }

  // ---- Statements that succeed ----

  lemma CreateTableSucceeds(db: Db, t: Name, columns: map<Name, Column>, key: Name, uniques: map<Name, set<Name>>)
    requires Valid(db) && t !in db && WellFormed(Definition(columns, key, uniques, map[]))
    ensures Exec(db, CreateTable(t, columns, key, uniques))
         == Some(db[t := Table(Definition(columns, key, uniques, map[]), map[])])
  {
    var table := Table(Definition(columns, key, uniques, map[]), map[]);
    var db' := db[t := table];
    hide RefersTo, WellFormed, Distinct, RowsFit;
    assert TableValid(table) by { EmptyTable(table); }
    forall s, f | s in db' && f in db'[s].def.foreignKeys ensures Refers(db', db'[s].rows, db'[s].def.foreignKeys[f]) {
      assert Refers(db, db[s].rows, db[s].def.foreignKeys[f]);
    }
    hide TableValid;
  }

  lemma EmptyTable(table: Table)
    requires WellFormed(table.def) && table.rows == map[]
    ensures TableValid(table)
  {
  }

  lemma DropTableSucceeds(db: Db, t: Name)
    requires Valid(db) && t in db
    requires forall s, f :: s in db && s != t && f in db[s].def.foreignKeys ==> db[s].def.foreignKeys[f].table != t
    ensures Exec(db, DropTable(t)) == Some(db - {t})
  {
    hide TableValid, RefersTo;
    var db' := db - {t};
    forall s, f | s in db' && f in db'[s].def.foreignKeys ensures Refers(db', db'[s].rows, db'[s].def.foreignKeys[f]) {
      assert Refers(db, db[s].rows, db[s].def.foreignKeys[f]);
      assert db[s].def.foreignKeys[f].table != t;
    }
  }

  lemma InsertSucceeds(db: Db, t: Name, id: RowKey, row: Row)
    requires Valid(db) && t in db && db[t].rows == map[] && db[t].def.foreignKeys == map[]
    requires RowFits(db[t].def.columns, row)
    ensures Exec(db, Insert(t, id, row)) == Some(db[t := db[t].(rows := map[id := row])])
  {
    var table := db[t].(rows := map[id := row]);
    var db' := db[t := table];
    assert TableValid(db[t]);
    assert TableValid(table);
    assert db[t].rows[id := row] == map[id := row];
    hide TableValid;
    forall s, f | s in db' && f in db'[s].def.foreignKeys ensures Refers(db', db'[s].rows, db'[s].def.foreignKeys[f]) {
      assert Refers(db, db[s].rows, db[s].def.foreignKeys[f]);
    }
  }

  // Distinct depends only on the columns it names.
  lemma DistinctAlike(a: map<RowKey, Row>, b: map<RowKey, Row>, c: Name, columns: set<Name>)
    requires Alike(a, b, c) && c !in columns && Distinct(a, columns)
    ensures Distinct(b, columns)
  {
    forall r, s | r in b && s in b && Same(b[r], b[s], columns) ensures r == s {
      SameAlike(a[r], a[s], b[r], b[s], c, columns);
    }
  }

  lemma SameAlike(a: Row, b: Row, a': Row, b': Row, c: Name, columns: set<Name>)
    requires a - {c} == a' - {c} && b - {c} == b' - {c} && c !in columns && Same(a', b', columns)
    ensures Same(a, b, columns)
  {
    forall d | d in columns ensures d in a && d in b && a[d] == b[d] && a[d] != Null {
      assert d in a' - {c} && d in b' - {c};
      assert d in a - {c} && d in b - {c};
    }
  }

  lemma AddedValid(table: Table, c: Name, spec: Column)
    requires TableValid(table) && c !in table.def.columns && spec.nullable
    ensures TableValid(Added(table, c, spec)) && Alike(table.rows, Added(table, c, spec).rows, c)
  {
    var a := Added(table, c, spec);
    forall r | r in table.rows ensures table.rows[r] - {c} == a.rows[r] - {c} && RowFits(a.def.columns, a.rows[r]) {
      RowGrows(table.def.columns, table.rows[r], c, spec);
    }
    DistinctAlike(table.rows, a.rows, c, {table.def.key});
    forall u | u in table.def.uniques ensures Distinct(a.rows, table.def.uniques[u]) {
      DistinctAlike(table.rows, a.rows, c, table.def.uniques[u]);
    }
    hide Distinct, RowFits;
  }

  lemma RowGrows(columns: map<Name, Column>, row: Row, c: Name, spec: Column)
    requires RowFits(columns, row) && c !in columns && spec.nullable
    ensures RowFits(columns[c := spec], row[c := Null]) && row - {c} == row[c := Null] - {c}
  {
  }

  lemma AddColumnSucceeds(db: Db, t: Name, c: Name, spec: Column)
    requires Valid(db) && t in db && c !in db[t].def.columns && spec.nullable
    ensures Exec(db, AddColumn(t, c, spec)) == Some(db[t := Added(db[t], c, spec)])
  {
    var table := Added(db[t], c, spec);
    assert TableValid(db[t]);
    assert WellFormed(db[t].def);
    hide TableValid;
    AddedValid(db[t], c, spec);
    NewColumnUnreferenced(db, t, c, table);
    Replaced(db, t, table, c);
    hide Valid;
  }

  lemma NewColumnUnreferenced(db: Db, t: Name, c: Name, table: Table)
    requires Valid(db) && t in db && c !in db[t].def.columns && table.def.foreignKeys == db[t].def.foreignKeys
    ensures Unreferenced(db[t := table], t, c)
    ensures WellFormed(db[t].def) ==>
              forall f :: f in table.def.foreignKeys ==> KeyKept(db, t, table, c, table.def.foreignKeys[f])
  {
    hide TableValid, Present;
    var db' := db[t := table];
    forall s, f | s in db' && f in db'[s].def.foreignKeys
      ensures db'[s].def.foreignKeys[f].table != t || db'[s].def.foreignKeys[f].referenced != c
    {
      assert Refers(db, db[s].rows, db[s].def.foreignKeys[f]);
    }
  }

  // Filling or dropping a column that no constraint of any table mentions.
  predicate Unconstrained(db: Db, t: Name, c: Name)
    requires t in db
  {
    && c != db[t].def.key && Unreferenced(db, t, c)
    && (forall u :: u in db[t].def.uniques ==> c !in db[t].def.uniques[u])
    && (forall f :: f in db[t].def.foreignKeys ==> db[t].def.foreignKeys[f].column != c)
  }

  lemma FillSucceeds(db: Db, t: Name, c: Name, source: Name, wanted: Name, filter: Name, value: string, row: RowKey)
    requires Valid(db) && t in db && c in db[t].def.columns && Unconstrained(db, t, c) && source in db
    requires wanted in db[source].def.columns && filter in db[source].def.columns
    requires Matching(db[source].rows, filter, value) == {row} && row in db[source].rows && wanted in db[source].rows[row]
    requires db[source].rows[row][wanted] != Null
    ensures Exec(db, SetFromLookup(t, c, source, wanted, filter, value))
         == Some(db[t := Filled(db[t], c, db[source].rows[row][wanted])])
  {
    var v := db[source].rows[row][wanted];
    var table := Filled(db[t], c, v);
    assert row in Matching(db[source].rows, filter, value);
    assert Looked(db[source].rows, wanted, filter, value) == v;
    FilledValid(db[t], c, v);
    hide TableValid, Matching, Looked;
    assert Alike(db[t].rows, table.rows, c);
    Replaced(db, t, table, c);
    hide Valid;
  }

  lemma FilledValid(table: Table, c: Name, v: Value)
    requires TableValid(table) && c in table.def.columns && v != Null && c != table.def.key
    requires forall u :: u in table.def.uniques ==> c !in table.def.uniques[u]
    ensures TableValid(Filled(table, c, v)) && Alike(table.rows, Filled(table, c, v).rows, c)
  {
    var rows := Filled(table, c, v).rows;
    forall r | r in rows ensures RowFits(table.def.columns, rows[r]) && table.rows[r] - {c} == rows[r] - {c} {
      assert RowFits(table.def.columns, table.rows[r]);
    }
    DistinctAlike(table.rows, rows, c, {table.def.key});
    forall u | u in table.def.uniques ensures Distinct(rows, table.def.uniques[u]) {
      DistinctAlike(table.rows, rows, c, table.def.uniques[u]);
    }
    hide Distinct;
  }

  lemma ChangeColumnSucceeds(db: Db, t: Name, c: Name, spec: Column)
    requires Valid(db) && t in db && c in db[t].def.columns && c != db[t].def.key
    requires db[t].def.columns[c].kind == spec.kind
    requires !spec.nullable ==> forall r :: r in db[t].rows && c in db[t].rows[r] ==> db[t].rows[r][c] != Null
    ensures Exec(db, ChangeColumn(t, c, spec))
         == Some(db[t := db[t].(def := db[t].def.(columns := db[t].def.columns[c := spec]))])
  {
    var def := db[t].def.(columns := db[t].def.columns[c := spec]);
    hide Distinct, RefersTo;
    assert TableValid(db[t]);
    forall r | r in db[t].rows ensures RowFits(def.columns, db[t].rows[r]) {
      assert RowFits(db[t].def.columns, db[t].rows[r]);
    }
    assert TableValid(Table(def, db[t].rows));
    Redefined(db, t, def);
    hide Valid, TableValid;
  }

  lemma ForeignKeySucceeds(db: Db, t: Name, name: Name, fk: ForeignKey)
    requires Valid(db) && t in db && name !in db[t].def.foreignKeys && fk.column in db[t].def.columns
    requires Refers(db, db[t].rows, fk) && fk.referenced == db[fk.table].def.key
    ensures Exec(db, CreateForeignKey(t, name, fk))
         == Some(db[t := db[t].(def := db[t].def.(foreignKeys := db[t].def.foreignKeys[name := fk]))])
  {
    var def := db[t].def.(foreignKeys := db[t].def.foreignKeys[name := fk]);
    hide Distinct, RefersTo, RowsFit;
    assert TableValid(db[t]);
    assert TableValid(Table(def, db[t].rows));
    Redefined(db, t, def);
    hide Valid, TableValid, Refers;
  }

  lemma DropForeignKeySucceeds(db: Db, t: Name, name: Name)
    requires Valid(db) && t in db && name in db[t].def.foreignKeys
    ensures Exec(db, DropForeignKey(t, name))
         == Some(db[t := db[t].(def := db[t].def.(foreignKeys := db[t].def.foreignKeys - {name}))])
  {
    var def := db[t].def.(foreignKeys := db[t].def.foreignKeys - {name});
    hide Distinct, RefersTo, RowsFit;
    assert TableValid(db[t]);
    assert TableValid(Table(def, db[t].rows));
    Redefined(db, t, def);
    hide Valid, TableValid, Refers;
  }

  lemma CreateUniqueSucceeds(db: Db, t: Name, name: Name, unique: set<Name>)
    requires Valid(db) && t in db && name !in db[t].def.uniques && unique <= db[t].def.columns.Keys
    requires Distinct(db[t].rows, unique)
    ensures Exec(db, CreateUnique(t, name, unique))
         == Some(db[t := db[t].(def := db[t].def.(uniques := db[t].def.uniques[name := unique]))])
  {
    var def := db[t].def.(uniques := db[t].def.uniques[name := unique]);
    hide Distinct, RefersTo, RowsFit;
    assert TableValid(db[t]);
    assert TableValid(Table(def, db[t].rows));
    Redefined(db, t, def);
    hide Valid, TableValid, Refers;
  }

  lemma DropUniqueSucceeds(db: Db, t: Name, name: Name)
    requires Valid(db) && t in db && name in db[t].def.uniques
    ensures Exec(db, DropUnique(t, name))
         == Some(db[t := db[t].(def := db[t].def.(uniques := db[t].def.uniques - {name}))])
  {
    var def := db[t].def.(uniques := db[t].def.uniques - {name});
    hide Distinct, RefersTo, RowsFit;
    assert TableValid(db[t]);
    assert TableValid(Table(def, db[t].rows));
    Redefined(db, t, def);
    hide Valid, TableValid, Refers;
  }

  lemma DropColumnSucceeds(db: Db, t: Name, c: Name)
    requires Valid(db) && t in db && c in db[t].def.columns && Unconstrained(db, t, c)
    ensures Exec(db, DropColumn(t, c)) == Some(db[t := Dropped(db[t], c)])
  {
    var table := Dropped(db[t], c);
    assert TableValid(db[t]);
    DroppedValid(db[t], c);
    hide TableValid, Dropped;
    assert table.def.foreignKeys == db[t].def.foreignKeys by { DroppedKeys(db[t], c); }
    Replaced(db, t, table, c);
    hide Valid;
  }

  lemma DroppedKeys(table: Table, c: Name)
    requires forall f :: f in table.def.foreignKeys ==> table.def.foreignKeys[f].column != c
    ensures Dropped(table, c).def.foreignKeys == table.def.foreignKeys
  {
  }

  lemma DroppedValid(table: Table, c: Name)
    requires TableValid(table) && c in table.def.columns && c != table.def.key
    ensures TableValid(Dropped(table, c)) && Alike(table.rows, Dropped(table, c).rows, c)
    ensures Dropped(table, c).def.columns.Keys == table.def.columns.Keys - {c}
  {
    var d := Dropped(table, c);
    forall r | r in d.rows ensures RowFits(d.def.columns, d.rows[r]) && table.rows[r] - {c} == d.rows[r] - {c} {
      assert RowFits(table.def.columns, table.rows[r]);
    }
    DistinctAlike(table.rows, d.rows, c, {table.def.key});
    forall u | u in d.def.uniques ensures Distinct(d.rows, d.def.uniques[u]) {
      DistinctAlike(table.rows, d.rows, c, d.def.uniques[u]);
    }
    hide Distinct;
  }

  lemma ValidTable(db: Db, t: Name)
    requires Valid(db) && t in db
    ensures TableValid(db[t])
  {
    hide TableValid, References;
  }

  lemma RestrictedSame(table: Table)
    requires TableValid(table)
    ensures Restricted(table, table.def) == table
  {
    var same := Restricted(table, table.def);
    forall r | r in table.rows ensures same.rows[r] == table.rows[r] {
      assert RowFits(table.def.columns, table.rows[r]);
    }
    hide Distinct;
  }

  // Restricting changes only the tables whose definition changes.
  lemma RestrictIs(db: Db, schema: Schema, after: Db)
    requires Valid(db) && after.Keys == schema.Keys && schema.Keys <= db.Keys
    requires forall t :: t in schema ==>
               (db[t].def == schema[t] && after[t] == db[t]) || after[t] == Restricted(db[t], schema[t])
    ensures after == Restrict(db, schema)
  {
    var restricted := Restrict(db, schema);
    hide Restricted, TableValid;
    assert restricted.Keys == schema.Keys;
    forall t | t in schema ensures after[t] == restricted[t] {
      RestrictedSame(db[t]);
    }
  }
}
