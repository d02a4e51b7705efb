/** The PostgreSQL driver (`PgDatabaseDriveInfo`). Its table and column
    builders have their assignments commented out, so every table and
    column it produces is a default record. Its schemas are built with a
    parameterless constructor the schema class does not declare; the model
    takes each to be the record with every property null. Lookups are LINQ
    first-match queries over those records. */
module PgDrive {
  import opened Common
  import opened NetStrings
  import opened DataModel
  import opened Readers

  /** The schema record `new PgDatabaseSchemaInfo()` is taken to build: the
      class declares only a three-argument constructor, so the call has no
      counterpart in the source, and the model reads it as all three
      properties null. */
  const DEFAULT_PG_SCHEMA_INFO := PgDatabaseSchemaInfo(None, None, None)

  /** `FirstOrDefault` over a `where` filter whose test may throw: the first
      item the test accepts, null when it accepts none, or the exception of
      the first test that throws before an item is accepted. */
  function FirstWhere<T>(items: seq<T>, test: T -> Result<bool>): (r: Result<Option<T>>)
    ensures r.Ok? && r.value.Some? ==>
      exists k :: 0 <= k < |items| && items[k] == r.value.value && test(items[k]) == Ok(true) &&
        forall j :: 0 <= j < k ==> test(items[j]) == Ok(false)
    ensures r == Ok(None) <==> forall j :: 0 <= j < |items| ==> test(items[j]) == Ok(false)
    ensures r.Throw? ==>
      exists k :: 0 <= k < |items| && test(items[k]) == Throw(r.error) &&
        forall j :: 0 <= j < k ==> test(items[j]) == Ok(false)
  {
    if items == [] then Ok(None)
    else
      match test(items[0])
      case Throw(e) => Throw(e)
      case Ok(true) => Ok(Some(items[0]))
      case Ok(false) =>
        var r := FirstWhere(items[1..], test);
        assert forall j :: 1 <= j < |items| ==> items[j] == items[1..][j - 1];
        r
  }

  /** A test that answers alike for every item either throws on the first
      item or decides for all of them at once. */
  lemma {:induction false} FirstWhereConstant<T>(items: seq<T>, test: T -> Result<bool>, answer: Result<bool>)
    requires forall k :: 0 <= k < |items| ==> test(items[k]) == answer
    ensures items == [] ==> FirstWhere(items, test) == Ok(None)
    ensures items != [] && answer == Ok(true) ==> FirstWhere(items, test) == Ok(Some(items[0]))
    ensures items != [] && answer.Throw? ==> FirstWhere(items, test) == Throw(answer.error)
    ensures answer == Ok(false) ==> FirstWhere(items, test) == Ok(None)
    decreases |items|
  {
    if items != [] && answer == Ok(false) {
      assert forall k :: 0 <= k < |items[1..]| ==> items[1..][k] == items[k + 1];
      FirstWhereConstant(items[1..], test, answer);
    }
  }

  /** `GetSchemas`: one all-null schema record per row; no column is read. */
  method GetSchemas(backend: Backend) returns (schemas: seq<PgDatabaseSchemaInfo>)
    ensures |schemas| == |backend(Command(SelectSchemas, []))|
    ensures forall k :: 0 <= k < |schemas| ==> schemas[k] == DEFAULT_PG_SCHEMA_INFO
  {
    var rows := backend(Command(SelectSchemas, []));
    schemas := [];
    var i := 0;
    while i < |rows|
      invariant 0 <= i <= |rows|
      invariant |schemas| == i
      invariant forall k :: 0 <= k < i ==> schemas[k] == DEFAULT_PG_SCHEMA_INFO
    {
      schemas := schemas + [PgDatabaseSchemaInfo(None, None, None)];
      i := i + 1;
    }
  }

  /** `GetSchemasNames()`: the `USERNAME` column of the schema query. */
  method GetSchemasNames(backend: Backend) returns (names: seq<NString>)
    ensures ColumnOf(names, backend(Command(SelectSchemas, [])), "USERNAME")
  {
    names := ReadStrings(backend(Command(SelectSchemas, [])), "USERNAME");
  }

  /** `GetSchemasNames(regexp)`: the `regexp` parameter is the pattern with
      `^` put in front (a null pattern gives `"^"`). */
  method GetSchemasNamesRegexp(backend: Backend, regexp: NString) returns (names: seq<NString>)
    ensures ColumnOf(names, backend(Command(SelectSchemas, [Parameter("regexp", Some("^" + OrEmpty(regexp)))])), "USERNAME")
  {
    var pattern := "^" + OrEmpty(regexp);
    names := ReadStrings(backend(Command(SelectSchemas, [Parameter("regexp", Some(pattern))])), "USERNAME");
  }

  /** `GetSchema`: the first schema whose name equals the argument without
      regard to case. Every schema record has a null name, so only a null
      argument finds one, and then only when the query yields a row. */
  method GetSchema(backend: Backend, schemaName: NString) returns (r: Option<PgDatabaseSchemaInfo>)
    ensures r.Some? <==> schemaName.None? && |backend(Command(SelectSchemas, []))| > 0
    ensures r.Some? ==> r.value == DEFAULT_PG_SCHEMA_INFO
  {
    var schemas := GetSchemas(backend);
    var test := (s: PgDatabaseSchemaInfo) => Ok(StringEqualsIgnoreCase(s.SchemaName, schemaName));
    var found := FirstWhere(schemas, test);
    FirstWhereConstant(schemas, test, Ok(schemaName.None?));
    r := found.value;
  }

  /** `BuildDatabaseTableInfo`: the row is not read. */
  function BuildDatabaseTableInfo(row: ReaderRow): (t: PgDatabaseTableInfo)
    ensures t.Columns.None? && t.TableName.None? && t.SchemaName.None? && t.RowCount == 0
  {
    DEFAULT_PG_TABLE_INFO
  }

  /** A column record with every property at its default. */
  ghost predicate IsDefaultColumn(c: PgDatabaseColumnInfo)
    reads c
  {
    c.ColumnName == None && c.TableName == None && c.TableCatalog == None && c.TableSchema == None &&
    c.OrdinalPosition == 0 && c.ColumnDefault == None && !c.IsNullable && c.DataType == None &&
    !c.IsUpdatable && c.TextDetails == map[] && c.NumberDetails == map[]
  }

  /** `BuildDatabaseColumnInfo`: a new record; the row is not read. */
  method BuildDatabaseColumnInfo(row: ReaderRow) returns (c: PgDatabaseColumnInfo)
    ensures fresh(c) && IsDefaultColumn(c)
    ensures !c.GetNillable() && c.GetSchemaName() == None
  {
    c := new PgDatabaseColumnInfo();
  }

  /** `GetDatabaseColumnsInfo`: one new default column record per row of
      the column query. */
  method GetDatabaseColumnsInfo(backend: Backend, schemaName: NString, tableName: NString)
    returns (cols: seq<PgDatabaseColumnInfo>)
    ensures |cols| == |backend(ColumnsCommand(schemaName, tableName))|
    ensures forall j :: 0 <= j < |cols| ==> fresh(cols[j]) && IsDefaultColumn(cols[j])
  {
    var rows := backend(ColumnsCommand(schemaName, tableName));
    cols := [];
    var i := 0;
    while i < |rows|
      invariant 0 <= i <= |rows|
      invariant |cols| == i
      invariant forall j :: 0 <= j < i ==> fresh(cols[j]) && IsDefaultColumn(cols[j])
    {
      var c := BuildDatabaseColumnInfo(rows[i]);
      cols := cols + [c];
      i := i + 1;
    }
  }

  /** `GetTables`: one default table per row of the table query, its columns
      attached. The column query is sent with the table name of the record
      just built, which is always null. */
  method GetTables(backend: Backend, schemaName: NString) returns (tables: seq<PgDatabaseTableInfo>)
    ensures |tables| == |backend(Command(SelectTables, [SchemaParameter(schemaName)]))|
    ensures forall k :: 0 <= k < |tables| ==>
      tables[k].Columns.Some? && tables[k] == DEFAULT_PG_TABLE_INFO.(Columns := tables[k].Columns)
    ensures forall k :: 0 <= k < |tables| && tables[k].Columns.Some? ==>
      |tables[k].Columns.value| == |backend(ColumnsCommand(schemaName, None))|
    ensures forall k, j :: 0 <= k < |tables| && tables[k].Columns.Some? && 0 <= j < |tables[k].Columns.value| ==>
      fresh(tables[k].Columns.value[j]) && IsDefaultColumn(tables[k].Columns.value[j])
  {
    var rows := backend(Command(SelectTables, [SchemaParameter(schemaName)]));
    tables := [];
    var i := 0;
    while i < |rows|
      invariant 0 <= i <= |rows|
      invariant |tables| == i
      invariant forall k :: 0 <= k < i ==>
        tables[k].Columns.Some? && tables[k] == DEFAULT_PG_TABLE_INFO.(Columns := tables[k].Columns)
      invariant forall k :: 0 <= k < i && tables[k].Columns.Some? ==>
        |tables[k].Columns.value| == |backend(ColumnsCommand(schemaName, None))|
      invariant forall k, j :: 0 <= k < i && tables[k].Columns.Some? && 0 <= j < |tables[k].Columns.value| ==>
        fresh(tables[k].Columns.value[j]) && IsDefaultColumn(tables[k].Columns.value[j])
    {
      var t := BuildDatabaseTableInfo(rows[i]);
      var cols := GetDatabaseColumnsInfo(backend, schemaName, t.TableName);
      t := t.(Columns := Some(cols));
      tables := tables + [t];
      i := i + 1;
    }
  }

  /** `GetTablesNames(schemaName)`: a null enumeration. */
  function GetTablesNames(schemaName: NString): (r: Option<seq<NString>>)
    ensures r.None?
  {
    None
  }

  /** `GetTablesNames(schemaName, tableName)`: a null enumeration. */
  function GetTablesNamesLike(schemaName: NString, tableName: NString): (r: Option<seq<NString>>)
    ensures r.None?
  {
    None
  }

  /** `GetTable`: the filter compares the requested name with itself, so it
      never looks at a table: a non-null name yields the schema's first table
      whatever it is called, a null name throws as soon as there is a table
      to test, and an empty schema yields null. The table found is the
      default record `GetTables` builds, its default columns attached. */
  method GetTable(backend: Backend, schemaName: NString, tableName: NString) returns (r: Result<Option<PgDatabaseTableInfo>>)
    ensures var rows := backend(Command(SelectTables, [SchemaParameter(schemaName)]));
      && (|rows| == 0 ==> r == Ok(None))
      && (|rows| > 0 && tableName.None? ==> r == Throw(NullReferenceException))
      && (|rows| > 0 && tableName.Some? ==> r.Ok? && r.value.Some? && r.value.value.TableName.None?)
    ensures r.Ok? && r.value.Some? ==>
      var t := r.value.value;
      && t.Columns.Some?
      && t == DEFAULT_PG_TABLE_INFO.(Columns := t.Columns)
      && |t.Columns.value| == |backend(ColumnsCommand(schemaName, None))|
      && forall j :: 0 <= j < |t.Columns.value| ==> IsDefaultColumn(t.Columns.value[j])
  {
    var tables := GetTables(backend, schemaName);
    var test := (t: PgDatabaseTableInfo) => InstanceEquals(tableName, tableName);
    r := FirstWhere(tables, test);
    FirstWhereConstant(tables, test, InstanceEquals(tableName, tableName));
  }

  /** `GetRows(schemaName, tableName, maxResult)`: the same capped copy as
      the Oracle driver; the schema name is not used. */
  method GetRows(backend: Backend, schemaName: NString, tableName: NString, maxResult: int) returns (rows: seq<PSObject>)
    ensures rows == CappedRows(backend(Command(SelectForTable(tableName), [])), maxResult)
  {
    rows := ReadRows(backend(Command(SelectForTable(tableName), [])), maxResult);
  }
}
