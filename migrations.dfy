/**
 * The schema migrations of the app's SQLite database and the way they are
 * chained when the database is opened. A schema is a set of tables (ordered
 * columns plus rows, each row a map from column name to value) and a set of
 * named indices. Each migration changes the schema through SQL statements;
 * the guarded ones first read `PRAGMA table_info` and skip the change when
 * the column is already there.
 */
module Migrations {
  import opened Wrappers

  /** A stored SQL value. */
  datatype Value = NullValue | IntegerValue(i: int) | TextValue(s: string) | RealValue(r: real)

  datatype ColumnType = IntegerType | TextType | RealType

  /** One `PRAGMA table_info` row: name, declared type, NOT NULL, PRIMARY KEY, default (NULL when none). */
  datatype Column = Column(name: string, colType: ColumnType, notNull: bool, primaryKey: bool, default: Value)

  type Row = map<string, Value>

  datatype Table = Table(columns: seq<Column>, rows: seq<Row>)

  datatype Index = Index(table: string, columns: seq<string>)

  datatype Schema = Schema(tables: map<string, Table>, indices: map<string, Index>)

  /** The errors SQLite raises for the statements the migrations run. */
  datatype SqlError =
    | NoSuchTable(table: string)
    | NoSuchColumn(column: string)
    | DuplicateColumn(column: string)
    | NotNullWithoutDefault(column: string)

  const DatabaseVersion: int := 6

  const WaterTable: string := "water_intake_entries"
  const PresetsTable: string := "container_presets"
  const DisplayOrderIndex: string := "index_container_presets_display_order"

  const HealthConnectColumn: Column := Column("health_connect_record_id", TextType, false, false, NullValue)
  const IsHiddenColumn: Column := Column("is_hidden", IntegerType, true, false, IntegerValue(0))
  const BeverageTypeColumn: Column := Column("beverage_type", TextType, true, false, TextValue("WATER"))

  /** The columns of `CREATE TABLE container_presets`. */
  const PresetColumns: seq<Column> := [
    Column("id", IntegerType, true, true, NullValue),
    Column("name", TextType, true, false, NullValue),
    Column("volume", RealType, true, false, NullValue),
    Column("icon_type", TextType, true, false, NullValue),
    Column("icon_name", TextType, true, false, NullValue),
    Column("is_default", IntegerType, true, false, IntegerValue(0)),
    Column("display_order", IntegerType, true, false, IntegerValue(0))
  ]

  function ColumnNames(cols: seq<Column>): set<string> {
    set c | c in cols :: c.name
  }

  predicate HasColumn(cols: seq<Column>, name: string) {
    name in ColumnNames(cols)
  }

  /** Distinct column names, and every row holds a value for exactly the table's columns. */
  predicate TableWellFormed(t: Table) {
    && (forall i, j :: 0 <= i < j < |t.columns| ==> t.columns[i].name != t.columns[j].name)
    && (forall i :: 0 <= i < |t.rows| ==> t.rows[i].Keys == ColumnNames(t.columns))
  }

  predicate SchemaWellFormed(s: Schema) {
    forall name :: name in s.tables ==> TableWellFormed(s.tables[name])
  }

  /** `PRAGMA table_info(t)`: the table's columns, none for a missing table. */
  function TableInfo(s: Schema, table: string): (cols: seq<Column>)
    ensures table !in s.tables ==> cols == []
  {
    if table in s.tables then s.tables[table].columns else []
  }

  /** A table with one more column, which every existing row reads as its default. */
  function WithColumn(t: Table, c: Column): (t': Table)
    ensures t'.columns == t.columns + [c] && |t'.rows| == |t.rows|
    ensures forall i :: 0 <= i < |t.rows| ==> t'.rows[i] == t.rows[i][c.name := c.default]
  {
    Table(t.columns + [c], seq(|t.rows|, i requires 0 <= i < |t.rows| => t.rows[i][c.name := c.default]))
  }

  /** `ALTER TABLE table ADD COLUMN c`. */
  function AddColumn(s: Schema, table: string, c: Column): (r: Result<Schema, SqlError>)
    ensures r.Failure? <==> table !in s.tables || HasColumn(s.tables[table].columns, c.name)
                            || (c.notNull && c.default == NullValue)
    ensures r.Success? ==> r.value.indices == s.indices && r.value.tables.Keys == s.tables.Keys
  {
    if table !in s.tables then Failure(NoSuchTable(table))
    else if HasColumn(s.tables[table].columns, c.name) then Failure(DuplicateColumn(c.name))
    else if c.notNull && c.default == NullValue then Failure(NotNullWithoutDefault(c.name))
    else Success(s.(tables := s.tables[table := WithColumn(s.tables[table], c)]))
  }

  /** `CREATE TABLE IF NOT EXISTS`: an existing table of that name is kept as it is. */
  function CreateTableIfNotExists(s: Schema, table: string, cols: seq<Column>): (s': Schema)
    ensures table in s'.tables && s'.indices == s.indices
    ensures table in s.tables ==> s' == s
    ensures table !in s.tables ==> s'.tables == s.tables[table := Table(cols, [])]
  {
    if table in s.tables then s else s.(tables := s.tables[table := Table(cols, [])])
  }

  /** `CREATE INDEX IF NOT EXISTS`: an existing index of that name is kept as it is. */
  function CreateIndexIfNotExists(s: Schema, name: string, table: string, cols: seq<string>): (r: Result<Schema, SqlError>)
    ensures r.Success? ==> r.value.tables == s.tables && name in r.value.indices
    ensures name in s.indices ==> r == Success(s)
    ensures name !in s.indices && table !in s.tables ==> r == Failure(NoSuchTable(table))
  {
    if name in s.indices then Success(s)
    else if table !in s.tables then Failure(NoSuchTable(table))
    else
      match FirstMissing(s.tables[table].columns, cols)
      case Some(c) => Failure(NoSuchColumn(c))
      case None => Success(s.(indices := s.indices[name := Index(table, cols)]))
  }

  /** The first of `names` that is not a column of the table. */
  function FirstMissing(columns: seq<Column>, names: seq<string>): (r: Option<string>)
    ensures r.Some? ==> r.value in names && !HasColumn(columns, r.value)
    ensures r.None? ==> forall n :: n in names ==> HasColumn(columns, n)
    decreases |names|
  {
    if names == [] then None
    else if !HasColumn(columns, names[0]) then Some(names[0])
    else
      assert forall n :: n in names ==> n == names[0] || n in names[1..];
      FirstMissing(columns, names[1..])
  }

  /** The registered migrations. */
  datatype Migration =
    | Migration1To2 | Migration1To3 | Migration2To3 | Migration3To4 | Migration4To5 | Migration5To6
  {
    function StartVersion(): int {
      match this
      case Migration1To2 => 1
      case Migration1To3 => 1
      case Migration2To3 => 2
      case Migration3To4 => 3
      case Migration4To5 => 4
      case Migration5To6 => 5
    }

    function EndVersion(): int {
      match this
      case Migration1To2 => 2
      case Migration1To3 => 3
      case Migration2To3 => 3
      case Migration3To4 => 4
      case Migration4To5 => 5
      case Migration5To6 => 6
    }
  }

  /** The list handed to `addMigrations`, in its order. */
  const Registered: seq<Migration> :=
    [Migration1To2, Migration1To3, Migration2To3, Migration3To4, Migration4To5, Migration5To6]

  /** 1 -> 2: a development version; the migration does nothing. */
  function Migrate1To2(s: Schema): Result<Schema, SqlError> {
    Success(s)
  }

  /** 1 -> 3 and 2 -> 3: adds the nullable Health Connect record id, with no existence check. */
  function AddHealthConnectId(s: Schema): Result<Schema, SqlError> {
    AddColumn(s, WaterTable, HealthConnectColumn)
  }

  /** Adds the column only when `PRAGMA table_info` does not list it. */
  function AddColumnIfMissing(s: Schema, table: string, c: Column): Result<Schema, SqlError> {
    if HasColumn(TableInfo(s, table), c.name) then Success(s) else AddColumn(s, table, c)
  }

  /** 3 -> 4: `is_hidden INTEGER NOT NULL DEFAULT 0`, guarded. */
  function Migrate3To4(s: Schema): Result<Schema, SqlError> {
    AddColumnIfMissing(s, WaterTable, IsHiddenColumn)
  }

  /** 4 -> 5: `beverage_type TEXT NOT NULL DEFAULT 'WATER'`, guarded. */
  function Migrate4To5(s: Schema): Result<Schema, SqlError> {
    AddColumnIfMissing(s, WaterTable, BeverageTypeColumn)
  }

  /** 5 -> 6: the presets table and its display-order index, both IF NOT EXISTS. */
  function Migrate5To6(s: Schema): Result<Schema, SqlError> {
    CreateIndexIfNotExists(CreateTableIfNotExists(s, PresetsTable, PresetColumns), DisplayOrderIndex, PresetsTable, ["display_order"])
  }

  function Apply(m: Migration, s: Schema): Result<Schema, SqlError> {
    match m
    case Migration1To2 => Migrate1To2(s)
    case Migration1To3 => AddHealthConnectId(s)
    case Migration2To3 => AddHealthConnectId(s)
    case Migration3To4 => Migrate3To4(s)
    case Migration4To5 => Migrate4To5(s)
    case Migration5To6 => Migrate5To6(s)
  }

  /** The migrations run in order; the first error stops the chain. */
  function ApplyPath(s: Schema, path: seq<Migration>): Result<Schema, SqlError>
    decreases |path|
  {
    if path == [] then Success(s)
    else
      match Apply(path[0], s)
      case Failure(e) => Failure(e)
      case Success(s1) => ApplyPath(s1, path[1..])
  }

  /** `m` starts at `v` and moves up without passing `target`. */
  predicate Leads(m: Migration, v: int, target: int) {
    m.StartVersion() == v && v < m.EndVersion() <= target
  }

  /** Among the registered migrations from position `k` on, one that leads
      from `v` towards `target` and reaches furthest. */
  function BestStepFrom(v: int, target: int, k: nat): (r: Option<Migration>)
    requires k <= |Registered|
    ensures r.Some? ==> Leads(r.value, v, target)
    decreases |Registered| - k
  {
    if k == |Registered| then None
    else
      var rest := BestStepFrom(v, target, k + 1);
      var m := Registered[k];
      if Leads(m, v, target) && (rest.None? || rest.value.EndVersion() < m.EndVersion()) then Some(m)
      else rest
  }

  /** The step chosen goes at least as far as every other registered
      migration leading from `v` towards `target`, and there is a step
      whenever some registered migration leads that way. */
  lemma {:induction false} BestStepIsFurthest(v: int, target: int, k: nat)
    requires k <= |Registered|
    ensures BestStepFrom(v, target, k).Some? ==>
              forall j :: k <= j < |Registered| && Leads(Registered[j], v, target)
                ==> Registered[j].EndVersion() <= BestStepFrom(v, target, k).value.EndVersion()
    ensures BestStepFrom(v, target, k).None? ==> forall j :: k <= j < |Registered| ==> !Leads(Registered[j], v, target)
    decreases |Registered| - k
  {
    if k < |Registered| {
      BestStepIsFurthest(v, target, k + 1);
    }
  }

  function BestStep(v: int, target: int): Option<Migration> {
    BestStepFrom(v, target, 0)
  }

  /** Consecutive upgrades leading from `from` to `to`. */
  predicate IsChain(path: seq<Migration>, from: int, to: int) {
    && (path == [] ==> from == to)
    && (path != [] ==> path[0].StartVersion() == from && path[|path| - 1].EndVersion() == to)
    && (forall i :: 0 <= i < |path| ==> path[i].StartVersion() < path[i].EndVersion())
    && (forall i :: 0 < i < |path| ==> path[i].StartVersion() == path[i - 1].EndVersion())
  }

  /** Room's upgrade path: from the current version, repeatedly take the
      registered migration that goes furthest without passing the target. */
  function PathFrom(v: int, target: int): (p: Option<seq<Migration>>)
    requires v <= target
    decreases target - v
  {
    if v == target then Some([])
    else
      match BestStep(v, target)
      case None => None
      case Some(m) =>
        match PathFrom(m.EndVersion(), target)
        case None => None
        case Some(rest) => Some([m] + rest)
  }

  /** A path Room finds is a chain of registered upgrades from `v` to `target`. */
  lemma {:induction false} PathFromIsChain(v: int, target: int)
    requires v <= target && PathFrom(v, target).Some?
    ensures IsChain(PathFrom(v, target).value, v, target)
    decreases target - v
  {
    if v < target {
      var m := BestStep(v, target).value;
      var rest := PathFrom(m.EndVersion(), target).value;
      PathFromIsChain(m.EndVersion(), target);
      var p := [m] + rest;
      assert forall i :: 0 < i < |p| ==> p[i] == rest[i - 1];
    }
  }

  /** The step Room takes from each version below 6. */
  lemma BestSteps()
    ensures BestStep(1, DatabaseVersion) == Some(Migration1To3)
    ensures BestStep(2, DatabaseVersion) == Some(Migration2To3)
    ensures BestStep(3, DatabaseVersion) == Some(Migration3To4)
    ensures BestStep(4, DatabaseVersion) == Some(Migration4To5)
    ensures BestStep(5, DatabaseVersion) == Some(Migration5To6)
  {
    BestStepsFromOneAndTwo();
    BestStepsFromThreeOn();
  }

  lemma BestStepsFromOneAndTwo()
    ensures BestStep(1, DatabaseVersion) == Some(Migration1To3)
    ensures BestStep(2, DatabaseVersion) == Some(Migration2To3)
  {
  }

  lemma BestStepsFromThreeOn()
    ensures BestStep(3, DatabaseVersion) == Some(Migration3To4)
    ensures BestStep(4, DatabaseVersion) == Some(Migration4To5)
    ensures BestStep(5, DatabaseVersion) == Some(Migration5To6)
  {
  }

  datatype OpenResult = Opened(schema: Schema) | MissingMigration(from: int) | MigrationFailed(error: SqlError)

  /** Opening the database file at `onDisk`: a new file (version 0) and a
      newer one (a downgrade, which is set to destroy and recreate) both get
      the `created` schema Room creates from the entities; an older one is
      migrated along the upgrade path; an upgrade without a path fails. */
  function Open(onDisk: int, s: Schema, created: Schema): OpenResult {
    if onDisk == 0 || onDisk > DatabaseVersion then Opened(created)
    else if onDisk == DatabaseVersion then Opened(s)
    else if onDisk < 0 then MissingMigration(onDisk)
    else
      match PathFrom(onDisk, DatabaseVersion)
      case None => MissingMigration(onDisk)
      case Some(path) =>
        match ApplyPath(s, path)
        case Failure(e) => MigrationFailed(e)
        case Success(s') => Opened(s')
  }

  /** Every table keeps its columns in front, its rows in order, and every
      value each row held. */
  ghost predicate Preserves(s: Schema, s': Schema) {
    forall name :: name in s.tables ==> name in s'.tables && TablePreserved(s.tables[name], s'.tables[name])
  }

  predicate TablePreserved(t: Table, t': Table) {
    && |t.columns| <= |t'.columns| && t'.columns[..|t.columns|] == t.columns
    && |t'.rows| == |t.rows|
    && (forall i, c :: 0 <= i < |t.rows| && c in t.rows[i] ==> c in t'.rows[i] && t'.rows[i][c] == t.rows[i][c])
  }

  lemma TablePreservedReflexive(t: Table)
    ensures TablePreserved(t, t)
  {
    assert t.columns[..|t.columns|] == t.columns;
  }

  lemma TablePreservedTransitive(t1: Table, t2: Table, t3: Table)
    requires TablePreserved(t1, t2) && TablePreserved(t2, t3)
    ensures TablePreserved(t1, t3)
  {
    assert t3.columns[..|t1.columns|] == t3.columns[..|t2.columns|][..|t1.columns|];
  }

  /** A table with one more column keeps its columns in front and every
      stored value, and stays well formed when the name is new. */
  lemma WithColumnPreserves(t: Table, c: Column)
    requires TableWellFormed(t) && !HasColumn(t.columns, c.name)
    ensures TablePreserved(t, WithColumn(t, c))
    ensures TableWellFormed(WithColumn(t, c))
  {
    var t' := WithColumn(t, c);
    assert t'.columns[..|t.columns|] == t.columns;
    forall i, x | 0 <= i < |t.rows| && x in t.rows[i] ensures x in t'.rows[i] && t'.rows[i][x] == t.rows[i][x] {
      assert x in ColumnNames(t.columns);
    }
    assert ColumnNames(t'.columns) == ColumnNames(t.columns) + {c.name} by {
      assert forall x :: x in t'.columns <==> x in t.columns || x == c;
    }
    forall i, j | 0 <= i < j < |t'.columns| ensures t'.columns[i].name != t'.columns[j].name {
      if j == |t.columns| {
        assert t.columns[i] in t.columns;
      }
    }
  }

  /** Every table is preserved by a schema whose tables are the same. */
  lemma SameTablesPreserve(s: Schema, s': Schema)
    requires s'.tables == s.tables
    ensures Preserves(s, s')
  {
    forall name | name in s.tables ensures TablePreserved(s.tables[name], s'.tables[name]) {
      TablePreservedReflexive(s.tables[name]);
    }
  }

  /** Replacing one table by a table that preserves it preserves the schema,
      and keeps it well formed when the new table is. */
  lemma ReplaceTablePreserves(s: Schema, name: string, t': Table, s': Schema)
    requires name in s.tables && TablePreserved(s.tables[name], t')
    requires s'.tables == s.tables[name := t']
    ensures Preserves(s, s')
    ensures SchemaWellFormed(s) && TableWellFormed(t') ==> SchemaWellFormed(s')
  {
    forall n | n in s.tables && n != name ensures TablePreserved(s.tables[n], s'.tables[n]) {
      TablePreservedReflexive(s.tables[n]);
    }
  }

  /** Adding a new table preserves the schema, and keeps it well formed when
      the new table is. */
  lemma AddTablePreserves(s: Schema, name: string, t: Table, s': Schema)
    requires name !in s.tables && s'.tables == s.tables[name := t]
    ensures Preserves(s, s')
    ensures SchemaWellFormed(s) && TableWellFormed(t) ==> SchemaWellFormed(s')
  {
    forall n | n in s.tables ensures TablePreserved(s.tables[n], s'.tables[n]) {
      TablePreservedReflexive(s.tables[n]);
    }
  }

  /** Adding a column loses nothing, and keeps a well-formed table well formed. */
  lemma AddColumnPreserves(s: Schema, table: string, c: Column)
    requires SchemaWellFormed(s) && AddColumn(s, table, c).Success?
    ensures Preserves(s, AddColumn(s, table, c).value)
    ensures SchemaWellFormed(AddColumn(s, table, c).value)
  {
    WithColumnPreserves(s.tables[table], c);
    ReplaceTablePreserves(s, table, WithColumn(s.tables[table], c), AddColumn(s, table, c).value);
  }

  /** No registered migration removes a table, a column, a row or a stored value. */
  lemma MigrationPreserves(m: Migration, s: Schema)
    requires SchemaWellFormed(s) && Apply(m, s).Success?
    ensures Preserves(s, Apply(m, s).value)
    ensures SchemaWellFormed(Apply(m, s).value)
  {
    match m
    case Migration1To2 => SameTablesPreserve(s, s);
    case Migration1To3 => AddColumnPreserves(s, WaterTable, HealthConnectColumn);
    case Migration2To3 => AddColumnPreserves(s, WaterTable, HealthConnectColumn);
    case Migration3To4 => GuardedAddPreserves(s, WaterTable, IsHiddenColumn);
    case Migration4To5 => GuardedAddPreserves(s, WaterTable, BeverageTypeColumn);
    case Migration5To6 => Migrate5To6Preserves(s);
  }

  lemma GuardedAddPreserves(s: Schema, table: string, c: Column)
    requires SchemaWellFormed(s) && AddColumnIfMissing(s, table, c).Success?
    ensures Preserves(s, AddColumnIfMissing(s, table, c).value)
    ensures SchemaWellFormed(AddColumnIfMissing(s, table, c).value)
  {
    if HasColumn(TableInfo(s, table), c.name) {
      SameTablesPreserve(s, s);
    } else {
      AddColumnPreserves(s, table, c);
    }
  }

  /** The seven preset columns have distinct names. */
  lemma PresetTableWellFormed()
    ensures TableWellFormed(Table(PresetColumns, []))
  {
    assert "icon_type"[5] != "icon_name"[5];
    forall i, j | 0 <= i < j < |PresetColumns| ensures PresetColumns[i].name != PresetColumns[j].name {
      assert |PresetColumns[i].name| != |PresetColumns[j].name| || (i == 3 && j == 4);
    }
  }

  lemma Migrate5To6Preserves(s: Schema)
    requires SchemaWellFormed(s) && Migrate5To6(s).Success?
    ensures Preserves(s, Migrate5To6(s).value)
    ensures SchemaWellFormed(Migrate5To6(s).value)
  {
    var s1 := CreateTableIfNotExists(s, PresetsTable, PresetColumns);
    var s' := Migrate5To6(s).value;
    assert s'.tables == s1.tables;
    if PresetsTable in s.tables {
      SameTablesPreserve(s, s');
    } else {
      PresetTableWellFormed();
      AddTablePreserves(s, PresetsTable, Table(PresetColumns, []), s');
    }
  }

  /** ... and neither does a whole upgrade path. */
  lemma {:induction false} ApplyPathPreserves(s: Schema, path: seq<Migration>)
    requires SchemaWellFormed(s) && ApplyPath(s, path).Success?
    ensures Preserves(s, ApplyPath(s, path).value)
    ensures SchemaWellFormed(ApplyPath(s, path).value)
    decreases |path|
  {
    if path == [] {
      forall name | name in s.tables ensures TablePreserved(s.tables[name], s.tables[name]) {
        var t := s.tables[name];
        assert t.columns[..|t.columns|] == t.columns;
      }
    } else {
      var s1 := Apply(path[0], s).value;
      MigrationPreserves(path[0], s);
      ApplyPathPreserves(s1, path[1..]);
      var s' := ApplyPath(s, path).value;
      forall name | name in s.tables ensures name in s'.tables && TablePreserved(s.tables[name], s'.tables[name]) {
        TablePreservedTransitive(s.tables[name], s1.tables[name], s'.tables[name]);
      }
    }
  }

  /** 1 -> 2 leaves the schema as it is. */
  lemma Migrate1To2IsIdentity(s: Schema)
    ensures Apply(Migration1To2, s) == Success(s)
  {
  }

  /** 1 -> 3 and 2 -> 3 add the column without checking for it first: run
      again on their own result, they fail with a duplicate column. */
  lemma HealthConnectMigrationNotIdempotent(s: Schema)
    requires AddHealthConnectId(s).Success?
    ensures AddHealthConnectId(AddHealthConnectId(s).value) == Failure(DuplicateColumn(HealthConnectColumn.name))
  {
    var t' := AddHealthConnectId(s).value.tables[WaterTable];
    assert t'.columns[|t'.columns| - 1] in t'.columns;
  }

  /** A guarded column addition run twice equals run once. */
  lemma AddColumnIfMissingIdempotent(s: Schema, table: string, c: Column)
    requires AddColumnIfMissing(s, table, c).Success?
    ensures AddColumnIfMissing(AddColumnIfMissing(s, table, c).value, table, c) == AddColumnIfMissing(s, table, c)
  {
    var s' := AddColumnIfMissing(s, table, c).value;
    var t' := s'.tables[table];
    if !HasColumn(TableInfo(s, table), c.name) {
      assert t'.columns[|t'.columns| - 1] in t'.columns;
    }
  }

  /** 3 -> 4, 4 -> 5 and 5 -> 6 check before they change anything: applying
      each twice equals applying it once. */
  lemma GuardedMigrationsIdempotent(s: Schema)
    ensures Migrate3To4(s).Success? ==> Migrate3To4(Migrate3To4(s).value) == Migrate3To4(s)
    ensures Migrate4To5(s).Success? ==> Migrate4To5(Migrate4To5(s).value) == Migrate4To5(s)
    ensures Migrate5To6(s).Success? ==> Migrate5To6(Migrate5To6(s).value) == Migrate5To6(s)
  {
    if Migrate3To4(s).Success? {
      AddColumnIfMissingIdempotent(s, WaterTable, IsHiddenColumn);
    }
    if Migrate4To5(s).Success? {
      AddColumnIfMissingIdempotent(s, WaterTable, BeverageTypeColumn);
    }
  }

  /** A guarded addition on a table without the column gives every existing
      row the column's default; a table that has it is left alone. */
  lemma AddColumnIfMissingDefaults(s: Schema, table: string, c: Column)
    requires table in s.tables && !(c.notNull && c.default == NullValue)
    ensures AddColumnIfMissing(s, table, c).Success?
    ensures HasColumn(s.tables[table].columns, c.name) ==> AddColumnIfMissing(s, table, c) == Success(s)
    ensures !HasColumn(s.tables[table].columns, c.name) ==>
              var t' := AddColumnIfMissing(s, table, c).value.tables[table];
              && t'.columns == s.tables[table].columns + [c]
              && |t'.rows| == |s.tables[table].rows|
              && forall i :: 0 <= i < |t'.rows| ==> t'.rows[i] == s.tables[table].rows[i][c.name := c.default]
  {
  }

  /** 5 -> 6 leaves every other table as it was and, on a version-5 schema,
      adds the seven-column presets table, empty, with its index. */
  lemma Migrate5To6Effect(s: Schema)
    ensures PresetsTable !in s.tables && DisplayOrderIndex !in s.indices ==>
              && Migrate5To6(s).Success?
              && Migrate5To6(s).value.tables == s.tables[PresetsTable := Table(PresetColumns, [])]
              && Migrate5To6(s).value.indices == s.indices[DisplayOrderIndex := Index(PresetsTable, ["display_order"])]
    ensures Migrate5To6(s).Success? ==>
              forall name :: name in s.tables && name != PresetsTable ==> Migrate5To6(s).value.tables[name] == s.tables[name]
  {
    if PresetsTable !in s.tables && DisplayOrderIndex !in s.indices {
      assert HasColumn(PresetColumns, "display_order") by {
        assert PresetColumns[6] in PresetColumns;
      }
    }
  }

  /** Every version from 1 to 5 has a registered upgrade path to 6. */
  lemma {:induction false} PathExists(v: int)
    requires 1 <= v <= DatabaseVersion
    ensures PathFrom(v, DatabaseVersion).Some?
    decreases DatabaseVersion - v
  {
    if v < DatabaseVersion {
      BestSteps();
      PathExists(v + 1);
    }
  }

  /** The paths Room takes: from 1 it jumps straight to 3, so 1 -> 2 is never
      used on the way to 6; from 2 it takes 2 -> 3. */
  lemma UpgradePaths()
    ensures PathFrom(1, DatabaseVersion) == Some(PathFromOne)
    ensures PathFrom(2, DatabaseVersion) == Some([Migration2To3, Migration3To4, Migration4To5, Migration5To6])
    ensures PathFrom(3, DatabaseVersion) == Some([Migration3To4, Migration4To5, Migration5To6])
  {
    BestSteps();
    assert PathFrom(DatabaseVersion, DatabaseVersion) == Some([]);
    assert [Migration5To6] + [] == [Migration5To6];
    assert PathFrom(5, DatabaseVersion) == Some([Migration5To6]);
    assert [Migration4To5] + [Migration5To6] == [Migration4To5, Migration5To6];
    assert PathFrom(4, DatabaseVersion) == Some([Migration4To5, Migration5To6]);
    assert [Migration3To4] + [Migration4To5, Migration5To6] == [Migration3To4, Migration4To5, Migration5To6];
    assert PathFrom(3, DatabaseVersion) == Some([Migration3To4, Migration4To5, Migration5To6]);
    assert [Migration1To3] + [Migration3To4, Migration4To5, Migration5To6] == PathFromOne;
    assert [Migration2To3] + [Migration3To4, Migration4To5, Migration5To6]
        == [Migration2To3, Migration3To4, Migration4To5, Migration5To6];
  }

  /** The version-1 layout: the intake table without the three later columns, no presets table. */
  predicate IsVersionOneSchema(s: Schema) {
    && WaterTable in s.tables
    && !HasColumn(s.tables[WaterTable].columns, HealthConnectColumn.name)
    && !HasColumn(s.tables[WaterTable].columns, IsHiddenColumn.name)
    && !HasColumn(s.tables[WaterTable].columns, BeverageTypeColumn.name)
    && PresetsTable !in s.tables && DisplayOrderIndex !in s.indices
  }

  /** The schema with one more column on the intake table. */
  function WithIntakeColumn(s: Schema, c: Column): (s': Schema)
    requires WaterTable in s.tables
    ensures s'.tables.Keys == s.tables.Keys && s'.indices == s.indices
  {
    s.(tables := s.tables[WaterTable := WithColumn(s.tables[WaterTable], c)])
  }

  /** A version-1 schema after the three column additions. */
  function VersionFiveOf(s: Schema): Schema
    requires WaterTable in s.tables
  {
    WithIntakeColumn(WithIntakeColumn(WithIntakeColumn(s, HealthConnectColumn), IsHiddenColumn), BeverageTypeColumn)
  }

  lemma ApplyPathCons(s: Schema, m: Migration, rest: seq<Migration>, s1: Schema)
    requires Apply(m, s) == Success(s1)
    ensures ApplyPath(s, [m] + rest) == ApplyPath(s1, rest)
  {
    assert ([m] + rest)[0] == m && ([m] + rest)[1..] == rest;
  }

  /** The migrations that add the three intake columns to a version-1 database. */
  const ColumnSteps: seq<Migration> := [Migration1To3, Migration3To4, Migration4To5]

  /** The intake table exists and has no column `name`. */
  predicate IntakeLacks(s: Schema, name: string) {
    WaterTable in s.tables && !HasColumn(s.tables[WaterTable].columns, name)
  }

  /** Adding one column to the intake table leaves every other name missing. */
  lemma AddKeepsLacking(s: Schema, c: Column, other: string)
    requires IntakeLacks(s, other) && other != c.name
    ensures IntakeLacks(WithIntakeColumn(s, c), other)
  {
    var t' := WithIntakeColumn(s, c).tables[WaterTable];
    assert forall x :: x in t'.columns ==> x in s.tables[WaterTable].columns || x == c;
  }

  /** An addition of a column the intake table lacks succeeds, guarded or not. */
  lemma AddIntakeColumn(s: Schema, c: Column)
    requires IntakeLacks(s, c.name) && !(c.notNull && c.default == NullValue)
    ensures AddColumn(s, WaterTable, c) == Success(WithIntakeColumn(s, c))
    ensures AddColumnIfMissing(s, WaterTable, c) == Success(WithIntakeColumn(s, c))
  {
  }

  /** 1 -> 3, 3 -> 4 and 4 -> 5 on a version-1 schema each add their column
      to the intake table and change nothing else; whatever follows them
      then runs on the result. */
  lemma FirstThreeSteps(s: Schema, rest: seq<Migration>)
    requires IsVersionOneSchema(s)
    ensures ApplyPath(s, ColumnSteps + rest) == ApplyPath(VersionFiveOf(s), rest)
  {
    var s1 := WithIntakeColumn(s, HealthConnectColumn);
    AddIntakeColumn(s, HealthConnectColumn);
    AddKeepsLacking(s, HealthConnectColumn, IsHiddenColumn.name);
    AddKeepsLacking(s, HealthConnectColumn, BeverageTypeColumn.name);
    var s2 := WithIntakeColumn(s1, IsHiddenColumn);
    AddIntakeColumn(s1, IsHiddenColumn);
    AddKeepsLacking(s1, IsHiddenColumn, BeverageTypeColumn.name);
    var s3 := WithIntakeColumn(s2, BeverageTypeColumn);
    AddIntakeColumn(s2, BeverageTypeColumn);
    ApplyPathCons(s2, Migration4To5, rest, s3);
    ApplyPathCons(s1, Migration3To4, [Migration4To5] + rest, s2);
    ApplyPathCons(s, Migration1To3, [Migration3To4] + ([Migration4To5] + rest), s1);
    ColumnStepsThenRest(rest);
  }

  /** The three column steps followed by `rest`, one step at a time. */
  lemma ColumnStepsThenRest(rest: seq<Migration>)
    ensures ColumnSteps + rest == [Migration1To3] + ([Migration3To4] + ([Migration4To5] + rest))
  {
  }

  /** The three additions give every intake row the three defaults. */
  lemma VersionFiveRows(s: Schema)
    requires WaterTable in s.tables
    ensures var w := s.tables[WaterTable];
            var w' := VersionFiveOf(s).tables[WaterTable];
            && |w'.rows| == |w.rows|
            && forall i :: 0 <= i < |w.rows| ==>
                 w'.rows[i] == w.rows[i][HealthConnectColumn.name := NullValue]
                                        [IsHiddenColumn.name := IntegerValue(0)]
                                        [BeverageTypeColumn.name := TextValue("WATER")]
  {
    var w := s.tables[WaterTable];
    var w1 := WithColumn(w, HealthConnectColumn);
    var w2 := WithColumn(w1, IsHiddenColumn);
    assert VersionFiveOf(s).tables[WaterTable] == WithColumn(w2, BeverageTypeColumn);
  }

  /** Opening a version-1 database succeeds, and every intake row survives
      with its values and the new columns' defaults: no Health Connect id,
      not hidden, beverage WATER. */
  lemma UpgradeFromVersionOne(s: Schema, created: Schema)
    requires IsVersionOneSchema(s)
    ensures Open(1, s, created).Opened?
    ensures var s' := Open(1, s, created).schema;
            && WaterTable in s'.tables && PresetsTable in s'.tables
            && |s'.tables[WaterTable].rows| == |s.tables[WaterTable].rows|
            && (forall i :: 0 <= i < |s.tables[WaterTable].rows| ==>
                  s'.tables[WaterTable].rows[i] ==
                    s.tables[WaterTable].rows[i][HealthConnectColumn.name := NullValue]
                                                [IsHiddenColumn.name := IntegerValue(0)]
                                                [BeverageTypeColumn.name := TextValue("WATER")])
            && s'.tables[PresetsTable] == Table(PresetColumns, [])
  {
    OpenFromVersionOne(s, created);
    var s3 := VersionFiveOf(s);
    Migrate5To6Effect(s3);
    VersionFiveRows(s);
    assert Open(1, s, created).schema.tables == s3.tables[PresetsTable := Table(PresetColumns, [])];
  }

  /** The upgrade path from version 1: the three column additions, then the presets table. */
  const PathFromOne: seq<Migration> := ColumnSteps + [Migration5To6]

  /** Opening at version 1 runs 1 -> 3, 3 -> 4, 4 -> 5 and then 5 -> 6. */
  lemma OpenFromVersionOne(s: Schema, created: Schema)
    requires IsVersionOneSchema(s)
    ensures PresetsTable !in VersionFiveOf(s).tables && DisplayOrderIndex !in VersionFiveOf(s).indices
    ensures Migrate5To6(VersionFiveOf(s)).Success?
    ensures Open(1, s, created) == Opened(Migrate5To6(VersionFiveOf(s)).value)
  {
    var s3 := VersionFiveOf(s);
    PathFromOneRuns(s);
    Migrate5To6Effect(s3);
    UpgradePaths();
    OpenAlongPath(1, s, created, PathFromOne);
  }

  lemma PathFromOneRuns(s: Schema)
    requires IsVersionOneSchema(s)
    ensures ApplyPath(s, PathFromOne) == Migrate5To6(VersionFiveOf(s))
  {
    FirstThreeSteps(s, [Migration5To6]);
    ApplyPathSingle(VersionFiveOf(s), Migration5To6);
  }

  /** Opening an older version runs the path Room found. */
  lemma OpenAlongPath(v: int, s: Schema, created: Schema, path: seq<Migration>)
    requires 1 <= v < DatabaseVersion && PathFrom(v, DatabaseVersion) == Some(path)
    ensures ApplyPath(s, path).Success? ==> Open(v, s, created) == Opened(ApplyPath(s, path).value)
    ensures ApplyPath(s, path).Failure? ==> Open(v, s, created) == MigrationFailed(ApplyPath(s, path).error)
  {
  }

  lemma ApplyPathSingle(s: Schema, m: Migration)
    ensures ApplyPath(s, [m]) == Apply(m, s)
  {
    if Apply(m, s).Success? {
      assert ApplyPath(Apply(m, s).value, []) == Apply(m, s);
    }
  }

  /** Running a path is running its first `k` steps and then the rest. */
  lemma {:induction false} ApplyPathSplit(s: Schema, path: seq<Migration>, k: nat)
    requires k <= |path| && ApplyPath(s, path[..k]).Success?
    ensures ApplyPath(s, path) == ApplyPath(ApplyPath(s, path[..k]).value, path[k..])
    decreases k
  {
    if k > 0 {
      var s1 := Apply(path[0], s).value;
      assert path[..k][1..] == path[1..][..k - 1];
      ApplyPathSplit(s1, path[1..], k - 1);
      assert path[1..][k - 1..] == path[k..];
    }
  }

  /** The database file at the current version is opened as it is; a newer
      one is recreated from scratch; a version with no path fails. */
  lemma OpenOtherVersions(s: Schema, created: Schema, v: int)
    ensures Open(DatabaseVersion, s, created) == Opened(s)
    ensures v > DatabaseVersion ==> Open(v, s, created) == Opened(created)
    ensures 1 <= v < DatabaseVersion ==> !Open(v, s, created).MissingMigration?
  {
    if 1 <= v < DatabaseVersion {
      PathExists(v);
    }
  }

  /** A migration error reaches the caller: the upgrade from 3 stops at the
      first failing step and reports its error. */
  lemma ErrorsPropagate(s: Schema, created: Schema)
    requires Migrate3To4(s).Failure?
    ensures Open(3, s, created) == MigrationFailed(Migrate3To4(s).error)
  {
    UpgradePaths();
  }

  /** The database connection the migrations run against. */
  class SqliteDb {
    var schema: Schema
    var version: int

    constructor (schema: Schema, version: int)
      ensures this.schema == schema && this.version == version
    {
      this.schema := schema;
      this.version := version;
    }

    /** `query("PRAGMA table_info(t)")`: the cursor's rows. */
    method QueryTableInfo(table: string) returns (cursor: seq<Column>)
      ensures cursor == TableInfo(schema, table)
    {
      cursor := TableInfo(schema, table);
    }

    /** `execSQL("ALTER TABLE ... ADD COLUMN ...")`: a failing statement changes nothing. */
    method ExecAddColumn(table: string, c: Column) returns (err: Option<SqlError>)
      modifies this
      ensures version == old(version)
      ensures err.None? <==> AddColumn(old(schema), table, c).Success?
      ensures err.None? ==> schema == AddColumn(old(schema), table, c).value
      ensures err.Some? ==> schema == old(schema) && err.value == AddColumn(old(schema), table, c).error
    {
      match AddColumn(schema, table, c)
      case Success(s) => schema := s; err := None;
      case Failure(e) => err := Some(e);
    }

    /** `execSQL("CREATE TABLE IF NOT EXISTS ...")`. */
    method ExecCreateTable(table: string, cols: seq<Column>)
      modifies this
      ensures version == old(version)
      ensures schema == CreateTableIfNotExists(old(schema), table, cols)
    {
      schema := CreateTableIfNotExists(schema, table, cols);
    }

    /** `execSQL("CREATE INDEX IF NOT EXISTS ...")`. */
    method ExecCreateIndex(name: string, table: string, cols: seq<string>) returns (err: Option<SqlError>)
      modifies this
      ensures version == old(version)
      ensures err.None? <==> CreateIndexIfNotExists(old(schema), name, table, cols).Success?
      ensures err.None? ==> schema == CreateIndexIfNotExists(old(schema), name, table, cols).value
      ensures err.Some? ==> schema == old(schema) && err.value == CreateIndexIfNotExists(old(schema), name, table, cols).error
    {
      match CreateIndexIfNotExists(schema, name, table, cols)
      case Success(s) => schema := s; err := None;
      case Failure(e) => err := Some(e);
    }
  }

  /** Walks the `table_info` cursor looking for a column name, stopping at the first match. */
  method ColumnExists(db: SqliteDb, table: string, name: string) returns (found: bool)
    ensures found <==> HasColumn(TableInfo(db.schema, table), name)
  {
    var cursor := db.QueryTableInfo(table);
    found := false;
    var i := 0;
    while i < |cursor|
      invariant 0 <= i <= |cursor|
      invariant forall j :: 0 <= j < i ==> cursor[j].name != name
    {
      if cursor[i].name == name {
        found := true;
        assert cursor[i] in cursor;
        break;
      }
      i := i + 1;
    }
    if !found {
      assert name !in ColumnNames(cursor) by {
        forall c | c in cursor ensures c.name != name {
          var j :| 0 <= j < |cursor| && cursor[j] == c;
        }
      }
    }
  }

  /** The verification pass: counts the rows of the `table_info` cursor. */
  method CountColumns(db: SqliteDb, table: string) returns (count: nat)
    ensures count == |TableInfo(db.schema, table)|
  {
    var cursor := db.QueryTableInfo(table);
    count := 0;
    while count < |cursor|
      invariant count <= |cursor|
    {
      count := count + 1;
    }
  }

  /** The body of the 3 -> 4 and 4 -> 5 migrations: add the column unless the cursor lists it. */
  method AddColumnUnlessListed(db: SqliteDb, table: string, c: Column) returns (err: Option<SqlError>)
    modifies db
    ensures db.version == old(db.version)
    ensures err.None? <==> AddColumnIfMissing(old(db.schema), table, c).Success?
    ensures err.None? ==> db.schema == AddColumnIfMissing(old(db.schema), table, c).value
    ensures err.Some? ==> err.value == AddColumnIfMissing(old(db.schema), table, c).error
  {
    var hasColumn := ColumnExists(db, table, c.name);
    if !hasColumn {
      err := db.ExecAddColumn(table, c);
      if err.Some? {
        return;
      }
    } else {
      err := None;
    }
    var _ := CountColumns(db, table);
  }

  /** `migrate(db)` of one registered migration; an error is passed on to the caller. */
  method Migrate(db: SqliteDb, m: Migration) returns (err: Option<SqlError>)
    modifies db
    ensures db.version == old(db.version)
    ensures err.None? <==> Apply(m, old(db.schema)).Success?
    ensures err.None? ==> db.schema == Apply(m, old(db.schema)).value
    ensures err.Some? ==> err.value == Apply(m, old(db.schema)).error
  {
    match m
    case Migration1To2 =>
      err := None;
    case Migration1To3 =>
      err := db.ExecAddColumn(WaterTable, HealthConnectColumn);
    case Migration2To3 =>
      err := db.ExecAddColumn(WaterTable, HealthConnectColumn);
    case Migration3To4 =>
      err := AddColumnUnlessListed(db, WaterTable, IsHiddenColumn);
    case Migration4To5 =>
      err := AddColumnUnlessListed(db, WaterTable, BeverageTypeColumn);
    case Migration5To6 =>
      db.ExecCreateTable(PresetsTable, PresetColumns);
      err := db.ExecCreateIndex(DisplayOrderIndex, PresetsTable, ["display_order"]);
  }

  /** Runs the migrations of a path in order, stopping at the first error. */
  method RunPath(db: SqliteDb, path: seq<Migration>) returns (err: Option<SqlError>)
    modifies db
    ensures db.version == old(db.version)
    ensures err.None? <==> ApplyPath(old(db.schema), path).Success?
    ensures err.None? ==> db.schema == ApplyPath(old(db.schema), path).value
    ensures err.Some? ==> err.value == ApplyPath(old(db.schema), path).error
  {
    var i := 0;
    while i < |path|
      invariant 0 <= i <= |path|
      invariant db.version == old(db.version)
      invariant ApplyPath(db.schema, path[i..]) == ApplyPath(old(db.schema), path)
    {
      assert path[i..][1..] == path[i + 1..];
      err := Migrate(db, path[i]);
      if err.Some? {
        return;
      }
      i := i + 1;
    }
    err := None;
  }

  /** Opening the database: recreate, keep, or migrate inside one transaction
      that is rolled back when a migration fails. */
  method OpenDatabase(db: SqliteDb, created: Schema) returns (r: OpenResult)
    modifies db
    ensures r == Open(old(db.version), old(db.schema), created)
    ensures r.Opened? ==> db.schema == r.schema && db.version == DatabaseVersion
    ensures !r.Opened? ==> db.schema == old(db.schema) && db.version == old(db.version)
  {
    var onDisk := db.version;
    if onDisk == 0 || onDisk > DatabaseVersion {
      db.schema, db.version := created, DatabaseVersion;
      return Opened(created);
    }
    if onDisk == DatabaseVersion {
      return Opened(db.schema);
    }
    if onDisk < 0 {
      return MissingMigration(onDisk);
    }
    var path := PathFrom(onDisk, DatabaseVersion);
    if path.None? {
      return MissingMigration(onDisk);
    }
    var saved := db.schema;
    var err := RunPath(db, path.value);
    if err.Some? {
      db.schema := saved;
      return MigrationFailed(err.value);
    }
    db.version := DatabaseVersion;
    r := Opened(db.schema);
  }
}
