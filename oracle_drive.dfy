/** The Oracle driver (`OracleDatabaseDriveInfo`). Every operation sends one
    command to the backend and reads its rows: enumerations read them all,
    lookups read the first one only, and the row dump stops at its cap. */
module OracleDrive {
  import opened Common
  import opened DataModel
  import opened Readers
  import opened OracleDatabaseFactory

  /** The single-table query shared by `GetTable` and `IsTableExist`. */
  function SingleTableCommand(schemaName: NString, tableName: NString): Command {
    Command(SelectSingleTable, [SchemaParameter(schemaName), TableParameter(tableName)])
  }

  /** The schema record of one row, read with the typed getters: a
      `USER_ID`, `USERNAME` or `CREATED` of another type throws. */
  function SchemaFromRow(row: ReaderRow): (r: Result<OracleDatabaseSchemaInfo>)
    ensures r.Ok? <==>
      GetInt64(Get(row, "USER_ID")).Ok? && Get(row, "USERNAME").VString? && Get(row, "CREATED").VDate?
    ensures r.Ok? ==> r.value.SchemaName == AsString(Get(row, "USERNAME")) && r.value.SchemaName.Some?
    ensures r.Throw? ==> r.error == InvalidCastException
  {
    var id :- GetInt64(Get(row, "USER_ID"));
    var name :- GetString(Get(row, "USERNAME"));
    var created :- GetDateTime(Get(row, "CREATED"));
    Ok(OracleDatabaseSchemaInfo(id, Some(name), created))
  }

  /** `GetSchemas`: one schema per row, in reader order, until a row whose
      columns do not convert; the schemas yielded before it are kept and the
      exception ends the enumeration. */
  method GetSchemas(backend: Backend) returns (schemas: seq<OracleDatabaseSchemaInfo>, error: Option<Exception>)
    ensures var rows := backend(Command(SelectSchemas, []));
      && |schemas| <= |rows|
      && (forall k :: 0 <= k < |schemas| ==> SchemaFromRow(rows[k]) == Ok(schemas[k]))
      && (error.None? <==> |schemas| == |rows|)
      && (error.Some? ==> SchemaFromRow(rows[|schemas|]) == Throw(error.value))
  {
    var rows := backend(Command(SelectSchemas, []));
    schemas := [];
    var i := 0;
    while i < |rows|
      invariant 0 <= i <= |rows|
      invariant |schemas| == i
      invariant forall k :: 0 <= k < i ==> SchemaFromRow(rows[k]) == Ok(schemas[k])
    {
      var s := SchemaFromRow(rows[i]);
      if s.Throw? {
        return schemas, Some(s.error);
      }
      schemas := schemas + [s.value];
      i := i + 1;
    }
    error := None;
  }

  /** `GetSchemasNames()`: the `USERNAME` column of every row. */
  method GetSchemasNames(backend: Backend) returns (names: seq<NString>)
    ensures ColumnOf(names, backend(Command(SelectSchemasNames, [])), "USERNAME")
  {
    names := ReadStrings(backend(Command(SelectSchemasNames, [])), "USERNAME");
  }

  /** `GetSchemasNames(regexp)`: the pattern is bound unchanged as the
      `regexp` parameter. */
  method GetSchemasNamesRegexp(backend: Backend, regexp: NString) returns (names: seq<NString>)
    ensures ColumnOf(names, backend(Command(SelectSchemasNamesRegexp, [Parameter("regexp", regexp)])), "USERNAME")
  {
    names := ReadStrings(backend(Command(SelectSchemasNamesRegexp, [Parameter("regexp", regexp)])), "USERNAME");
  }

  /** `GetSchema`: built from the first row alone; null when there is none. */
  function GetSchema(backend: Backend, schemaName: NString): (r: Result<Option<OracleDatabaseSchemaInfo>>)
    ensures var rows := backend(Command(SelectSchema, [SchemaParameter(schemaName)]));
      && (|rows| == 0 ==> r == Ok(None))
      && (|rows| > 0 && SchemaFromRow(rows[0]).Ok? ==> r == Ok(Some(SchemaFromRow(rows[0]).value)))
      && (|rows| > 0 && SchemaFromRow(rows[0]).Throw? ==> r == Throw(InvalidCastException))
      && (r.Ok? && r.value.Some? ==> |rows| > 0 && r.value.value == SchemaFromRow(rows[0]).value)
  {
    var rows := backend(Command(SelectSchema, [SchemaParameter(schemaName)]));
    if |rows| == 0 then Ok(None)
    else
      var s :- SchemaFromRow(rows[0]);
      Ok(Some(s))
  }

  /** Rows after the first never matter to `GetSchema`. */
  lemma GetSchemaReadsFirstRowOnly(b1: Backend, b2: Backend, schemaName: NString)
    requires var c := Command(SelectSchema, [SchemaParameter(schemaName)]);
      (|b1(c)| == 0 <==> |b2(c)| == 0) && (|b1(c)| > 0 ==> b1(c)[0] == b2(c)[0])
    ensures GetSchema(b1, schemaName) == GetSchema(b2, schemaName)
  {
  }

  /** `GetSupportedObjectTypes`: every object type, whatever the schema. */
  function GetSupportedObjectTypes(schemaName: NString): (r: seq<ObjectType>)
    ensures |r| == 2
    ensures forall t: ObjectType :: t in r
  {
    AllObjectTypesListed();
    ALL_OBJECT_TYPES
  }

  /** `GetViews`: one decoded view per row, in reader order. */
  method GetViews(backend: Backend, schemaName: NString) returns (views: seq<OracleDatabaseViewInfo>)
    ensures var rows := backend(Command(SelectViews, [SchemaParameter(schemaName)]));
      |views| == |rows| && forall k :: 0 <= k < |rows| ==> views[k] == BuildDatabaseViewInfo(rows[k])
  {
    var rows := backend(Command(SelectViews, [SchemaParameter(schemaName)]));
    views := [];
    var i := 0;
    while i < |rows|
      invariant 0 <= i <= |rows|
      invariant |views| == i
      invariant forall k :: 0 <= k < i ==> views[k] == BuildDatabaseViewInfo(rows[k])
    {
      views := views + [BuildDatabaseViewInfo(rows[i])];
      i := i + 1;
    }
  }

  /** `GetViewsNames(schemaName)`: not implemented. */
  function GetViewsNames(schemaName: NString): (r: Result<seq<NString>>)
    ensures r.Throw? && r.error.NotImplementedException?
  {
    Throw(NotImplementedException)
  }

  /** `GetViewsNames(schemaName, viewName)`: not implemented. */
  function GetViewsNamesLike(schemaName: NString, viewName: NString): (r: Result<seq<NString>>)
    ensures r.Throw? && r.error.NotImplementedException?
  {
    Throw(NotImplementedException)
  }

  /** `GetView`: not implemented. */
  function GetView(schemaName: NString, viewName: NString): (r: Result<OracleDatabaseViewInfo>)
    ensures r.Throw? && r.error.NotImplementedException?
  {
    Throw(NotImplementedException)
  }

  /** `cols` are the decoded rows of a column query, one per row, in order. */
  ghost predicate ColumnsFrom(cols: seq<OracleDatabaseColumnInfo>, rows: seq<ReaderRow>)
    reads set c | c in cols
  {
    |cols| == |rows| && forall j :: 0 <= j < |cols| ==> ColumnFrom(cols[j], rows[j])
  }

  /** `GetDatabaseColumnsInfo`: one new column record per row of the column
      query for (`schemaName`, `tableName`). */
  method GetDatabaseColumnsInfo(backend: Backend, schemaName: NString, tableName: NString)
    returns (cols: seq<OracleDatabaseColumnInfo>)
    ensures forall j :: 0 <= j < |cols| ==> fresh(cols[j])
    ensures ColumnsFrom(cols, backend(ColumnsCommand(schemaName, tableName)))
  {
    var rows := backend(ColumnsCommand(schemaName, tableName));
    cols := [];
    var i := 0;
    while i < |rows|
      invariant 0 <= i <= |rows|
      invariant |cols| == i
      invariant forall j :: 0 <= j < i ==> fresh(cols[j]) && ColumnFrom(cols[j], rows[j])
    {
      var c := BuildDatabaseColumnInfo(rows[i]);
      cols := cols + [c];
      i := i + 1;
    }
  }

  /** A table decoded from `row` whose columns are those the column query
      returns for the same schema and the `TABLE_NAME` read back from the
      row. */
  ghost predicate TableWithColumns(backend: Backend, schemaName: NString, t: DatabaseTableInfo, row: ReaderRow)
    reads t, if t.Columns.Some? then set c | c in t.Columns.value else {}
  {
    TableFrom(t, row) && t.Columns.Some? &&
    ColumnsFrom(t.Columns.value, backend(ColumnsCommand(schemaName, AsString(Get(row, "TABLE_NAME")))))
  }

  /** The body of the `GetTables` loop and of `GetTable`'s first-row case:
      decode the row, then attach the columns queried with the same schema
      and the table name just read back. */
  method BuildTableWithColumns(backend: Backend, schemaName: NString, row: ReaderRow) returns (t: DatabaseTableInfo)
    ensures fresh(t)
    ensures TableWithColumns(backend, schemaName, t, row)
  {
    t := BuildDatabaseTableInfo(row);
    var cols := GetDatabaseColumnsInfo(backend, schemaName, t.TableName);
    t.Columns := Some(cols);
  }

  /** `GetTables`: one new table record per row of the table query, in
      reader order, each with its columns attached. */
  method GetTables(backend: Backend, schemaName: NString) returns (tables: seq<DatabaseTableInfo>)
    ensures var rows := backend(Command(SelectTables, [SchemaParameter(schemaName)]));
      |tables| == |rows| &&
      forall k :: 0 <= k < |rows| ==> fresh(tables[k]) && TableWithColumns(backend, schemaName, tables[k], rows[k])
  {
    var rows := backend(Command(SelectTables, [SchemaParameter(schemaName)]));
    tables := [];
    var i := 0;
    while i < |rows|
      invariant 0 <= i <= |rows|
      invariant |tables| == i
      invariant forall k :: 0 <= k < i ==> fresh(tables[k]) && TableWithColumns(backend, schemaName, tables[k], rows[k])
    {
      var t := BuildTableWithColumns(backend, schemaName, rows[i]);
      tables := tables + [t];
      i := i + 1;
    }
  }

  /** `GetTablesNames(schemaName)`: the `TABLE_NAME` column of every row. */
  method GetTablesNames(backend: Backend, schemaName: NString) returns (names: seq<NString>)
    ensures ColumnOf(names, backend(Command(SelectTablesNames, [SchemaParameter(schemaName)])), "TABLE_NAME")
  {
    names := ReadStrings(backend(Command(SelectTablesNames, [SchemaParameter(schemaName)])), "TABLE_NAME");
  }

  /** `GetTablesNames(schemaName, tableName)`: the `regexp` parameter is
      bound to the schema name; the table name is never read. */
  method GetTablesNamesLike(backend: Backend, schemaName: NString, tableName: NString) returns (names: seq<NString>)
    ensures ColumnOf(names, backend(Command(SelectTablesNamesRegexp,
      [SchemaParameter(schemaName), Parameter("regexp", schemaName)])), "TABLE_NAME")
  {
    var command := Command(SelectTablesNamesRegexp, [SchemaParameter(schemaName), Parameter("regexp", schemaName)]);
    names := ReadStrings(backend(command), "TABLE_NAME");
  }

  /** `IsTableExist`: the single-table query yields a row. */
  predicate IsTableExist(backend: Backend, schemaName: NString, tableName: NString) {
    |backend(SingleTableCommand(schemaName, tableName))| > 0
  }

  /** `GetTable`: built from the first row of the single-table query, with
      its columns attached; null exactly when `IsTableExist` is false. */
  method GetTable(backend: Backend, schemaName: NString, tableName: NString) returns (table: Option<DatabaseTableInfo>)
    ensures table.Some? <==> IsTableExist(backend, schemaName, tableName)
    ensures table.Some? ==> (fresh(table.value) &&
      TableWithColumns(backend, schemaName, table.value, backend(SingleTableCommand(schemaName, tableName))[0]))
  {
    var rows := backend(SingleTableCommand(schemaName, tableName));
    if |rows| > 0 {
      var t := BuildTableWithColumns(backend, schemaName, rows[0]);
      return Some(t);
    }
    return None;
  }

  /** `GetRows(schemaName, tableName, maxResult)`: the capped rows of the
      table's select; the schema name is not used. */
  method GetRows(backend: Backend, schemaName: NString, tableName: NString, maxResult: int) returns (rows: seq<PSObject>)
    ensures rows == CappedRows(backend(Command(SelectForTable(tableName), [])), maxResult)
  {
    rows := ReadRows(backend(Command(SelectForTable(tableName), [])), maxResult);
  }

  /** `IsSchemaExist`: the existence query yields a row. */
  function IsSchemaExist(backend: Backend, schemaName: NString): (r: bool)
    ensures r <==> backend(Command(SelectSchemaExists, [SchemaParameter(schemaName)])) != []
  {
    |backend(Command(SelectSchemaExists, [SchemaParameter(schemaName)]))| > 0
  }

  /** `IsObjectExist`: only tables can exist; for a table, the first path
      segment is looked up (a null path dereferences null, an empty one
      indexes out of range). Other types never read the path. */
  function IsObjectExist(backend: Backend, schemaName: NString, objectType: ObjectType, objectPath: Option<seq<NString>>)
    : (r: Result<bool>)
    ensures objectType != TABLE ==> r == Ok(false)
    ensures objectType == TABLE && objectPath.None? ==> r == Throw(NullReferenceException)
    ensures objectType == TABLE && objectPath == Some([]) ==> r == Throw(IndexOutOfRangeException)
    ensures objectType == TABLE && objectPath.Some? && objectPath.value != [] ==>
      r == Ok(IsTableExist(backend, schemaName, objectPath.value[0]))
  {
    if objectType == TABLE then
      if objectPath.None? then Throw(NullReferenceException)
      else if |objectPath.value| == 0 then Throw(IndexOutOfRangeException)
      else Ok(IsTableExist(backend, schemaName, objectPath.value[0]))
    else Ok(false)
  }

  /** Only the schema and the first path segment decide `IsObjectExist`. */
  lemma IsObjectExistReadsFirstSegment(backend: Backend, schemaName: NString, objectType: ObjectType,
                                       p1: seq<NString>, p2: seq<NString>)
    requires p1 != [] && p2 != [] && p1[0] == p2[0]
    ensures IsObjectExist(backend, schemaName, objectType, Some(p1)) == IsObjectExist(backend, schemaName, objectType, Some(p2))
  {
  }
}
