/** The reader side of a drive. A query is named by the constant that holds
    its SQL text; a command is a query plus its bound parameters; the
    database is a backend that answers every command with the rows its
    reader would yield. The loops the drivers share (the capped row copy and
    the one-column name lists) and the reader's typed getters live here. */
module Readers {
  import opened Common
  import opened DataModel

  /** The queries the drivers send, named after the constant holding their
      text (each driver has its own text; a backend belongs to one driver).
      `SelectForTable` is `DatabaseUtils.GetSelectStringForTable(tableName)`. */
  datatype Query =
    | SelectSchemas
    | SelectSchemasNames
    | SelectSchemasNamesRegexp
    | SelectSchema
    | SelectSchemaExists
    | SelectViews
    | SelectTables
    | SelectTablesNames
    | SelectTablesNamesRegexp
    | SelectColumns
    | SelectSingleTable
    | SelectForTable(tableName: NString)

  /** A bound `DbParameter`: its name and its string value. */
  datatype Parameter = Parameter(name: string, value: NString)

  datatype Command = Command(query: Query, parameters: seq<Parameter>)

  /** The database: the rows a command's reader yields, in reader order. */
  type Backend = Command -> seq<ReaderRow>

  function SchemaParameter(schemaName: NString): Parameter {
    Parameter("schemaname", schemaName)
  }

  function TableParameter(tableName: NString): Parameter {
    Parameter("tablename", tableName)
  }

  /** The column query for one table (both drivers' `GetDatabaseColumnsInfo`). */
  function ColumnsCommand(schemaName: NString, tableName: NString): Command {
    Command(SelectColumns, [SchemaParameter(schemaName), TableParameter(tableName)])
  }

  /** What `PSObjectBuilder` makes of one row: one property per column, in
      ordinal order. */
  function ToPSObject(row: ReaderRow): PSObject {
    PSObject(row.fields)
  }

  /** The rows `GetRows` yields for a reader and a `maxResult`: never more
      than `maxResult`, none when `maxResult <= 0`, every row when the cap
      is at least the reader's length, each one the reader's row at the same
      position. */
  function CappedRows(reader: seq<ReaderRow>, maxResult: int): (r: seq<PSObject>)
    ensures |r| <= |reader|
    ensures maxResult <= 0 ==> r == []
    ensures maxResult > 0 ==> |r| <= maxResult
    ensures maxResult >= |reader| ==> |r| == |reader|
    ensures maxResult > 0 && |r| < |reader| ==> |r| == maxResult
    ensures forall k :: 0 <= k < |r| ==> r[k] == ToPSObject(reader[k])
  {
    var n := if maxResult <= 0 then 0 else Min(maxResult, |reader|);
    seq(n, k requires 0 <= k < n => ToPSObject(reader[k]))
  }

  /** Reader order is kept: a smaller cap yields a prefix of what a larger
      cap yields. */
  lemma CappedRowsPrefix(reader: seq<ReaderRow>, m1: int, m2: int)
    requires m1 <= m2
    ensures CappedRows(reader, m1) <= CappedRows(reader, m2)
  {
  }

  /** The `while (reader.Read())` loop of `GetRows`: while `maxResult` is
      positive a row is copied field by field and yielded, otherwise the
      enumeration stops; `maxResult` is decremented after every row. */
  method ReadRows(reader: seq<ReaderRow>, maxResult: int) returns (rows: seq<PSObject>)
    ensures rows == CappedRows(reader, maxResult)
  {
    var remaining := maxResult;
    var i := 0;
    rows := [];
    while i < |reader|
      invariant 0 <= i <= |reader|
      invariant remaining == maxResult - i
      invariant i == 0 || i <= maxResult
      invariant |rows| == i
      invariant forall k :: 0 <= k < i ==> rows[k] == ToPSObject(reader[k])
    {
      if remaining > 0 {
        var properties: seq<Field> := [];
        var j := 0;
        while j < |reader[i].fields|
          invariant 0 <= j <= |reader[i].fields|
          invariant properties == reader[i].fields[..j]
        {
          properties := properties + [reader[i].fields[j]];
          j := j + 1;
        }
        assert properties == reader[i].fields;
        rows := rows + [PSObject(properties)];
      } else {
        return;
      }
      remaining := remaining - 1;
      i := i + 1;
    }
  }

  /** `names` is one column of a reader's rows, read with `as string`, in
      reader order. */
  predicate ColumnOf(names: seq<NString>, reader: seq<ReaderRow>, column: string) {
    |names| == |reader| &&
    forall k :: 0 <= k < |reader| ==> names[k] == AsString(Get(reader[k], column))
  }

  /** `reader[column] as string` for every row, in reader order: the loop
      behind every `Get…Names` enumeration. */
  method ReadStrings(reader: seq<ReaderRow>, column: string) returns (names: seq<NString>)
    ensures ColumnOf(names, reader, column)
  {
    names := [];
    var i := 0;
    while i < |reader|
      invariant 0 <= i <= |reader|
      invariant ColumnOf(names, reader[..i], column)
    {
      var name := AsString(Get(reader[i], column));
      assert reader[..i + 1] == reader[..i] + [reader[i]];
      names := names + [name];
      i := i + 1;
    }
    assert reader[..i] == reader;
  }

  /** `DbDataReader.GetInt64`: a `long`, an `int` or an integral `NUMBER`
      converts; anything else, `DBNull` included, is an invalid cast. */
  function GetInt64(v: Value): (r: Result<Int64>)
    ensures r.Ok? <==> (
      || v.VInt64?
      || (v.VInt32? && -0x8000_0000_0000_0000 <= v.int32 < 0x8000_0000_0000_0000)
      || (v.VDecimal? && v.decimal == v.decimal.Floor as real &&
          -0x8000_0000_0000_0000 <= v.decimal.Floor < 0x8000_0000_0000_0000))
    ensures r.Throw? ==> r.error == InvalidCastException
  {
    match v
    case VInt64(n) => Ok(n)
    case VInt32(n) =>
      if -0x8000_0000_0000_0000 <= n < 0x8000_0000_0000_0000 then Ok(n) else Throw(InvalidCastException)
    case VDecimal(d) =>
      if d == d.Floor as real && -0x8000_0000_0000_0000 <= d.Floor < 0x8000_0000_0000_0000
      then Ok(d.Floor) else Throw(InvalidCastException)
    case _ => Throw(InvalidCastException)
  }

  /** `DbDataReader.GetString`. */
  function GetString(v: Value): (r: Result<string>)
    ensures r.Ok? <==> v.VString?
    ensures r.Ok? ==> AsString(v) == Some(r.value)
    ensures r.Throw? ==> r.error == InvalidCastException
  {
    if v.VString? then Ok(v.str) else Throw(InvalidCastException)
  }

  /** `DbDataReader.GetDateTime`. */
  function GetDateTime(v: Value): (r: Result<DateTime>)
    ensures r.Ok? <==> v.VDate?
    ensures r.Ok? ==> AsDateTime(v) == Some(r.value)
    ensures r.Throw? ==> r.error == InvalidCastException
  {
    if v.VDate? then Ok(v.date) else Throw(InvalidCastException)
  }

  /** The typed getter and `as long?` agree on a `long`, but differ on an
      integral `NUMBER`: the getter converts it, `as` yields null. */
  lemma TypedGetterVersusAs(v: Value)
    ensures v.VInt64? ==> GetInt64(v) == Ok(v.long) && AsLong(v) == Some(v.long)
    ensures v == VDecimal(42.0) ==> GetInt64(v) == Ok(42) && AsLong(v) == None
    ensures v.DBNull? ==> GetInt64(v).Throw? && AsLong(v) == None
  {
  }
}
