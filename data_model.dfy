/** The data model the drives hand to the provider: object types, the rows
    a data reader yields, and the catalogue records (tables, columns, views,
    schemas). Records whose properties the code sets after construction are
    classes; records that are only ever built whole are datatypes. */
module DataModel {
  import opened Common
  import opened NetStrings

  /** The kinds of database object a schema holds. */
  datatype ObjectType = TABLE | VIEW

  /** An object type as string concatenation renders it (`Enum.ToString`). */
  function ObjectTypeName(t: ObjectType): string {
    match t
    case TABLE => "TABLE"
    case VIEW => "VIEW"
  }

  /** `Enum.GetValues(typeof(ObjectType))`: every member, in declaration order. */
  const ALL_OBJECT_TYPES: seq<ObjectType> := [TABLE, VIEW]

  /** `TypeCode.Int32`: what `GetTypeCode()` answers for every value of an
      enumeration whose underlying type is `int`. */
  const INT32_TYPE_CODE: int := 9

  /** The list holds every member exactly once. */
  lemma AllObjectTypesListed()
    ensures forall t: ObjectType :: t in ALL_OBJECT_TYPES
    ensures |ALL_OBJECT_TYPES| == 2 && ALL_OBJECT_TYPES[0] != ALL_OBJECT_TYPES[1]
  {
    forall t: ObjectType
      ensures t in ALL_OBJECT_TYPES
    {
      if t == TABLE {
        assert ALL_OBJECT_TYPES[0] == t;
      } else {
        assert ALL_OBJECT_TYPES[1] == t;
      }
    }
  }

  /** One column of the row a data reader is positioned on: its name and its
      value. */
  datatype Field = Field(name: string, value: Value)

  /** The row a `DbDataReader` is positioned on, columns in ordinal order. */
  datatype ReaderRow = ReaderRow(fields: seq<Field>)

  /** `reader[name]`: the value of the first column of that name. A name the
      row does not have reads as `DBNull`. */
  function Lookup(fields: seq<Field>, name: string): Value {
    if fields == [] then DBNull
    else if fields[0].name == name then fields[0].value
    else Lookup(fields[1..], name)
  }

  /** The value looked up is that of the first column of the name, and
      `DBNull` when no column has it. */
  lemma {:induction false} LookupFindsFirst(fields: seq<Field>, name: string)
    ensures (forall k :: 0 <= k < |fields| ==> fields[k].name != name) ==> Lookup(fields, name) == DBNull
    ensures forall k ::
      (0 <= k < |fields| && fields[k].name == name && forall j :: 0 <= j < k ==> fields[j].name != name)
      ==> Lookup(fields, name) == fields[k].value
  {
    if fields != [] {
      LookupFindsFirst(fields[1..], name);
      assert forall k :: 1 <= k < |fields| ==> fields[1..][k - 1] == fields[k];
    }
  }

  function Get(row: ReaderRow, name: string): Value {
    Lookup(row.fields, name)
  }

  /** Column information for an Oracle table column (`OracleDatabaseColumnInfo`).
      The properties the model reasons about are fields of their own; the
      other catalogue properties are kept by the name of the column they are
      read from. */
  class OracleDatabaseColumnInfo {
    var Owner: NString
    var TableName: NString
    var ColumnName: NString
    var Nullable: NString
    var DataLength: Option<Int64>
    var LastAnalyzed: Option<DateTime>
    var TextDetails: map<string, NString>
    var NumberDetails: map<string, Option<Int64>>

    /** A fresh instance: every property null. */
    constructor ()
      ensures Owner == None && TableName == None && ColumnName == None && Nullable == None
      ensures DataLength == None && LastAnalyzed == None
      ensures TextDetails == map[] && NumberDetails == map[]
      ensures !Nillable() && SchemaName() == None
    {
      Owner, TableName, ColumnName, Nullable := None, None, None, None;
      DataLength, LastAnalyzed := None, None;
      TextDetails, NumberDetails := map[], map[];
    }

    /** `SchemaName`: the owner, and nothing else. */
    function SchemaName(): (r: NString)
      reads this`Owner
      ensures r == Owner
    {
      Owner
    }

    /** `Nillable`: the static ordinal `String.Equals(Nullable, "N")`. */
    function Nillable(): (r: bool)
      reads this`Nullable
      ensures r <==> Nullable == Some("N")
    {
      StringEquals(Nullable, Some("N"))
    }
  }

  /** `Nillable` is false for a null flag, for `"Y"` and for a lower-case `"n"`. */
  lemma NillableOnlyForUpperN(c: OracleDatabaseColumnInfo)
    ensures c.Nullable in {None, Some("Y"), Some("n")} ==> !c.Nillable()
  {
  }

  /** Column information for a PostgreSQL column (`PgDatabaseColumnInfo`).
      `Nillable` and `SchemaName` are not fields of their own: their
      accessors read and write `IsNullable` and `TableSchema`. The other
      string and `int?` properties are kept by property name. */
  class PgDatabaseColumnInfo {
    var ColumnName: NString
    var TableName: NString
    var TableCatalog: NString
    var TableSchema: NString
    var OrdinalPosition: int
    var ColumnDefault: NString
    var IsNullable: bool
    var DataType: NString
    var IsUpdatable: bool
    var TextDetails: map<string, NString>
    var NumberDetails: map<string, Option<int>>

    /** A fresh instance: references null, numbers 0, flags false. */
    constructor ()
      ensures ColumnName == None && TableName == None && TableCatalog == None && TableSchema == None
      ensures OrdinalPosition == 0 && ColumnDefault == None && !IsNullable && DataType == None
      ensures !IsUpdatable && TextDetails == map[] && NumberDetails == map[]
      ensures !GetNillable() && GetSchemaName() == None
    {
      ColumnName, TableName, TableCatalog, TableSchema := None, None, None, None;
      OrdinalPosition, ColumnDefault, IsNullable, DataType := 0, None, false, None;
      IsUpdatable, TextDetails, NumberDetails := false, map[], map[];
    }

    /** The `Nillable` getter reads `IsNullable`. */
    function GetNillable(): (r: bool)
      reads this`IsNullable
      ensures r == IsNullable
    {
      IsNullable
    }

    /** The `Nillable` setter writes `IsNullable` and nothing else. */
    method SetNillable(value: bool)
      modifies this`IsNullable
      ensures IsNullable == value && GetNillable() == value
    {
      IsNullable := value;
    }

    /** The `SchemaName` getter reads `TableSchema`. */
    function GetSchemaName(): (r: NString)
      reads this`TableSchema
      ensures r == TableSchema
    {
      TableSchema
    }

    /** The `SchemaName` setter writes `TableSchema` and nothing else. */
    method SetSchemaName(value: NString)
      modifies this`TableSchema
      ensures TableSchema == value && GetSchemaName() == value
    {
      TableSchema := value;
    }
  }

  /** Table information (`DatabaseTableInfo`); the Oracle driver fills one
      per catalogue row. */
  class DatabaseTableInfo {
    var Owner: NString
    var TableName: NString
    var NumRows: Option<Int64>
    var LastAnalyzed: Option<DateTime>
    var TextDetails: map<string, NString>
    var NumberDetails: map<string, Option<Int64>>
    /** `Columns`, null until the driver attaches the column list. */
    var Columns: Option<seq<OracleDatabaseColumnInfo>>

    /** A fresh instance: every property null. */
    constructor ()
      ensures Owner == None && TableName == None && NumRows == None && LastAnalyzed == None
      ensures TextDetails == map[] && NumberDetails == map[] && Columns == None
      ensures SchemaName() == None && RowCount() == 0
    {
      Owner, TableName, NumRows, LastAnalyzed := None, None, None, None;
      TextDetails, NumberDetails, Columns := map[], map[], None;
    }

    /** `SchemaName`: the owner; it reads no other property, so setting any
        other one leaves it as it was. */
    function SchemaName(): (r: NString)
      reads this`Owner
      ensures r == Owner
    {
      Owner
    }

    /** `RowCount`: the catalogue's row count when it has one, 0 when it is
        null; it reads no other property. */
    function RowCount(): (r: Int64)
      reads this`NumRows
      ensures NumRows.Some? ==> r == NumRows.value
      ensures NumRows.None? ==> r == 0
    {
      if NumRows.Some? then NumRows.value else 0
    }
  }

  /** View information (`OracleDatabaseViewInfo`), whose `SchemaName` is its
      owner. */
  datatype OracleDatabaseViewInfo = OracleDatabaseViewInfo(
    Owner: NString,
    ViewName: NString,
    TextLength: Option<Int64>,
    TextDetails: map<string, NString>,
    NumberDetails: map<string, Option<Int64>>)
  {
    function SchemaName(): NString {
      Owner
    }
  }

  /** Schema information of the Oracle driver (`OracleDatabaseSchemaInfo`). */
  datatype OracleDatabaseSchemaInfo = OracleDatabaseSchemaInfo(UserId: Int64, SchemaName: NString, CreateDate: DateTime)

  /** Schema information of the PostgreSQL driver (`PgDatabaseSchemaInfo`). */
  datatype PgDatabaseSchemaInfo = PgDatabaseSchemaInfo(CatalogName: NString, SchemaOwner: NString, SchemaName: NString)

  /** Table information of the PostgreSQL driver (`PgDatabaseTableInfo`):
      its fifteen auto-properties, in declaration order. */
  datatype PgDatabaseTableInfo = PgDatabaseTableInfo(
    TableCatalog: NString,
    TableSchema: NString,
    TableType: NString,
    SelfReferencingColumnName: NString,
    ReferenceGeneration: NString,
    UserDefinedTypeCatalog: NString,
    UserDefinedTypeSchema: NString,
    UserDefinedTypeName: NString,
    IsInsertableInto: Option<bool>,
    IsTyped: Option<bool>,
    CommitAction: NString,
    Columns: Option<seq<PgDatabaseColumnInfo>>,
    RowCount: Int64,
    SchemaName: NString,
    TableName: NString)

  /** A `PgDatabaseTableInfo` as its parameterless constructor leaves it:
      every reference and nullable property null, the row count 0. */
  const DEFAULT_PG_TABLE_INFO :=
    PgDatabaseTableInfo(None, None, None, None, None, None, None, None, None, None, None, None, 0, None, None)

  /** A row of a table as the drivers hand it out (`PSObject`): one property
      per reader column, in ordinal order. */
  datatype PSObject = PSObject(properties: seq<Field>)
}
