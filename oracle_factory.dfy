/** `OracleDatabaseFactory`: the decoders that turn the current row of an
    Oracle catalogue query into a view, column or table record. Each reads
    columns by name and converts them with C#'s `as`, so a value of another
    runtime type (a `DBNull`, a `decimal` where a `long?` is declared)
    becomes null. The row is passed by value: a decoder cannot move the
    reader. */
module OracleDatabaseFactory {
  import opened Common
  import opened DataModel

  /** The string-typed and `long?`-typed columns each decoder reads besides
      the ones the model names as fields. */
  const VIEW_TEXT_COLUMNS: seq<string> :=
    ["TEXT", "TYPE_TEXT", "OID_TEXT", "VIEW_TYPE_OWNER", "VIEW_TYPE", "SUPERVIEW_NAME"]
  const VIEW_NUMBER_COLUMNS: seq<string> := ["TYPE_TEXT_LENGTH", "OID_TEXT_LENGTH"]

  const COLUMN_TEXT_COLUMNS: seq<string> :=
    ["DATA_TYPE", "DATA_TYPE_MOD", "DATA_TYPE_OWNER", "LOW_VALUE", "HIGH_VALUE",
     "CHARACTER_SET_NAME", "GLOBAL_STATS", "USER_STATS", "CHAR_USED", "V80_FMT_IMAGE",
     "DATA_UPGRADED", "HISTOGRAM"]
  const COLUMN_NUMBER_COLUMNS: seq<string> :=
    ["DATA_PRECISION", "DATA_SCALE", "COLUMN_ID", "DEFAULT_LENGTH", "DATA_DEFAULT",
     "NUM_DISTINCT", "DENSITY", "NUM_NULLS", "NUM_BUCKETS", "SAMPLE_SIZE",
     "CHAR_COL_DECL_LENGTH", "AVG_COL_LEN", "CHAR_LENGTH"]

  const TABLE_TEXT_COLUMNS: seq<string> :=
    ["TABLESPACE_NAME", "CLUSTER_NAME", "IOT_NAME", "STATUS", "LOGGING", "BACKED_UP",
     "DEGREE", "INSTANCES", "CACHE", "TABLE_LOCK", "PARTITIONED", "IOT_TYPE", "TEMPORARY",
     "SECONDARY", "NESTED", "BUFFER_POOL", "FLASH_CACHE", "CELL_FLASH_CACHE",
     "ROW_MOVEMENT", "GLOBAL_STATS", "USER_STATS", "DURATION", "SKIP_CORRUPT",
     "MONITORING", "CLUSTER_OWNER", "DEPENDENCIES", "COMPRESSION", "COMPRESS_FOR",
     "DROPPED", "READ_ONLY", "SEGMENT_CREATED", "RESULT_CACHE"]
  const TABLE_NUMBER_COLUMNS: seq<string> :=
    ["PCT_FREE", "PCT_USED", "INI_TRANS", "MAX_TRANS", "INITIAL_EXTENT", "NEXT_EXTENT",
     "MIN_EXTENTS", "MAX_EXTENTS", "PCT_INCREASE", "FREELISTS", "FREELIST_GROUPS",
     "BLOCKS", "EMPTY_BLOCKS", "AVG_SPACE", "CHAIN_CNT", "AVG_ROW_LEN",
     "AVG_SPACE_FREELIST_BLOCKS", "NUM_FREELIST_BLOCKS", "SAMPLE_SIZE"]

  /** `reader[name] as string` for every name of a list. */
  function TextColumns(row: ReaderRow, names: seq<string>): map<string, NString> {
    map n | n in names :: AsString(Get(row, n))
  }

  /** `reader[name] as long?` for every name of a list. */
  function NumberColumns(row: ReaderRow, names: seq<string>): map<string, Option<Int64>> {
    map n | n in names :: AsLong(Get(row, n))
  }

  /** `BuildDatabaseViewInfo`. */
  function BuildDatabaseViewInfo(row: ReaderRow): (v: OracleDatabaseViewInfo)
    ensures v.Owner.Some? <==> Get(row, "OWNER").VString?
    ensures v.Owner.Some? ==> Get(row, "OWNER") == VString(v.Owner.value)
    ensures v.ViewName.Some? <==> Get(row, "VIEW_NAME").VString?
    ensures v.ViewName.Some? ==> Get(row, "VIEW_NAME") == VString(v.ViewName.value)
    ensures v.TextLength.Some? <==> Get(row, "TEXT_LENGTH").VInt64?
    ensures v.TextLength.Some? ==> Get(row, "TEXT_LENGTH") == VInt64(v.TextLength.value)
  {
    OracleDatabaseViewInfo(
      AsString(Get(row, "OWNER")),
      AsString(Get(row, "VIEW_NAME")),
      AsLong(Get(row, "TEXT_LENGTH")),
      TextColumns(row, VIEW_TEXT_COLUMNS),
      NumberColumns(row, VIEW_NUMBER_COLUMNS))
  }

  /** The view's schema and name are the `OWNER` and `VIEW_NAME` strings,
      and its text length the `TEXT_LENGTH` long; each is null when its
      column holds another type, so a `DBNull` or a `decimal` length is null. */
  lemma ViewDecoding(row: ReaderRow, owner: string, name: string, length: Int64)
    ensures BuildDatabaseViewInfo(row).SchemaName() == Some(owner) <==> Get(row, "OWNER") == VString(owner)
    ensures BuildDatabaseViewInfo(row).ViewName == Some(name) <==> Get(row, "VIEW_NAME") == VString(name)
    ensures BuildDatabaseViewInfo(row).TextLength == Some(length) <==> Get(row, "TEXT_LENGTH") == VInt64(length)
    ensures Get(row, "TEXT_LENGTH").DBNull? || Get(row, "TEXT_LENGTH").VDecimal? ==>
      BuildDatabaseViewInfo(row).TextLength == None
  {
  }

  /** The column record `BuildDatabaseColumnInfo` leaves after decoding `row`. */
  ghost predicate ColumnFrom(c: OracleDatabaseColumnInfo, row: ReaderRow)
    reads c
  {
    c.Owner == AsString(Get(row, "OWNER")) &&
    c.TableName == AsString(Get(row, "TABLE_NAME")) &&
    c.ColumnName == AsString(Get(row, "COLUMN_NAME")) &&
    c.Nullable == AsString(Get(row, "NULLABLE")) &&
    c.DataLength == AsLong(Get(row, "DATA_LENGTH")) &&
    c.LastAnalyzed == AsDateTime(Get(row, "LAST_ANALYZED")) &&
    c.TextDetails == TextColumns(row, COLUMN_TEXT_COLUMNS) &&
    c.NumberDetails == NumberColumns(row, COLUMN_NUMBER_COLUMNS)
  }

  /** `BuildDatabaseColumnInfo`: a new record, its properties assigned one
      after another from the row. */
  method BuildDatabaseColumnInfo(row: ReaderRow) returns (c: OracleDatabaseColumnInfo)
    ensures fresh(c)
    ensures ColumnFrom(c, row)
  {
    var owner := AsString(Get(row, "OWNER"));
    var tableName := AsString(Get(row, "TABLE_NAME"));
    var columnName := AsString(Get(row, "COLUMN_NAME"));
    var dataLength := AsLong(Get(row, "DATA_LENGTH"));
    var nullable := AsString(Get(row, "NULLABLE"));
    var lastAnalyzed := AsDateTime(Get(row, "LAST_ANALYZED"));
    var textDetails := TextColumns(row, COLUMN_TEXT_COLUMNS);
    var numberDetails := NumberColumns(row, COLUMN_NUMBER_COLUMNS);
    c := new OracleDatabaseColumnInfo();
    c.Owner := owner;
    c.TableName := tableName;
    c.ColumnName := columnName;
    c.DataLength := dataLength;
    c.Nullable := nullable;
    c.LastAnalyzed := lastAnalyzed;
    c.TextDetails := textDetails;
    c.NumberDetails := numberDetails;
  }

  /** A decoded column is nillable exactly when its `NULLABLE` column holds
      the string `"N"`, and its schema is the `OWNER` string. */
  lemma ColumnDecoding(c: OracleDatabaseColumnInfo, row: ReaderRow, owner: string)
    requires ColumnFrom(c, row)
    ensures c.Nillable() <==> Get(row, "NULLABLE") == VString("N")
    ensures c.SchemaName() == Some(owner) <==> Get(row, "OWNER") == VString(owner)
    ensures !Get(row, "DATA_LENGTH").VInt64? ==> c.DataLength == None
  {
  }

  /** The table record `BuildDatabaseTableInfo` leaves after decoding `row`,
      its column list not yet attached. */
  ghost predicate TableFrom(t: DatabaseTableInfo, row: ReaderRow)
    reads t
  {
    t.Owner == AsString(Get(row, "OWNER")) &&
    t.TableName == AsString(Get(row, "TABLE_NAME")) &&
    t.NumRows == AsLong(Get(row, "NUM_ROWS")) &&
    t.LastAnalyzed == AsDateTime(Get(row, "LAST_ANALYZED")) &&
    t.TextDetails == TextColumns(row, TABLE_TEXT_COLUMNS) &&
    t.NumberDetails == NumberColumns(row, TABLE_NUMBER_COLUMNS)
  }

  /** `BuildDatabaseTableInfo`: a new `OracleDatabaseTableInfo`, modelled by
      `DatabaseTableInfo`, its properties assigned one after another from
      the row; `Columns` is left null. */
  method BuildDatabaseTableInfo(row: ReaderRow) returns (t: DatabaseTableInfo)
    ensures fresh(t)
    ensures TableFrom(t, row) && t.Columns == None
  {
    var owner := AsString(Get(row, "OWNER"));
    var tableName := AsString(Get(row, "TABLE_NAME"));
    var numRows := AsLong(Get(row, "NUM_ROWS"));
    var lastAnalyzed := AsDateTime(Get(row, "LAST_ANALYZED"));
    var textDetails := TextColumns(row, TABLE_TEXT_COLUMNS);
    var numberDetails := NumberColumns(row, TABLE_NUMBER_COLUMNS);
    t := new DatabaseTableInfo();
    t.Owner := owner;
    t.TableName := tableName;
    t.NumRows := numRows;
    t.LastAnalyzed := lastAnalyzed;
    t.TextDetails := textDetails;
    t.NumberDetails := numberDetails;
  }

  /** A decoded table's schema is the `OWNER` string, and its row count is
      `NUM_ROWS` when that column is a `long`, and 0 otherwise (null, or a
      `decimal`). */
  lemma TableDecoding(t: DatabaseTableInfo, row: ReaderRow, owner: string)
    requires TableFrom(t, row)
    ensures t.SchemaName() == Some(owner) <==> Get(row, "OWNER") == VString(owner)
    ensures t.RowCount() == (if Get(row, "NUM_ROWS").VInt64? then Get(row, "NUM_ROWS").long else 0)
  {
  }
}
