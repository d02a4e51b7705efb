/** `DatabaseDriveInfo` and its factory: the drive's read limits, the choice
    of driver by provider name, and the operations the base class implements
    itself on top of the driver's. */
module Drives {
  import opened Common
  import opened NetStrings
  import opened DataModel
  import opened Readers
  import OracleDrive
  import PgDrive

  /** The one provider name the factory knows. */
  const ORACLE_PROVIDER: string := "Oracle.ManagedDataAccess.Client"

  const DEFAULT_MAX_READ_RESULT: int := 100
  const DEFAULT_BULK_READ_LIMIT: int := 50
  const DEFAULT_TIMEOUT: int := 60

  /** The concrete drive classes. */
  datatype DriveKind = Oracle | PostgreSql

  /** The switch of `DatabaseDriveInfoFactory.NewInstance`: the Oracle
      provider gets an Oracle drive; any other name, null included, is
      refused with a message that starts with the name. */
  function ProviderKind(provider: NString): (r: Result<DriveKind>)
    ensures r.Ok? <==> provider == Some(ORACLE_PROVIDER)
    ensures r.Ok? ==> r.value == Oracle
    ensures r.Throw? ==> r.error == ArgumentException(OrEmpty(provider) + " provider is not supported yet !")
    ensures r.Throw? ==> StartsWith(r.error.message, OrEmpty(provider))
  {
    if provider == Some(ORACLE_PROVIDER) then Ok(Oracle)
    else
      var message := OrEmpty(provider) + " provider is not supported yet !";
      assert message[..|OrEmpty(provider)|] == OrEmpty(provider);
      Throw(ArgumentException(message))
  }

  /** No provider name leads to the PostgreSQL drive: the factory cannot
      build one. */
  lemma PostgreSqlIsNeverChosen(provider: NString)
    ensures ProviderKind(provider) != Ok(PostgreSql)
    ensures ProviderKind(Some("Npgsql")).Throw?
  {
  }

  /** A mounted database drive. `Kind` picks the driver whose operations the
      virtual calls reach; `Backend` is the database behind the connection. */
  class DatabaseDriveInfo {
    const Kind: DriveKind
    const Backend: Backend
    var MaxReadResult: int
    var BulkReadLimit: int
    var Timeout: int

    /** The constructor sets the three limits to their defaults. */
    constructor (kind: DriveKind, backend: Backend)
      ensures Kind == kind && Backend == backend
      ensures MaxReadResult == DEFAULT_MAX_READ_RESULT
      ensures BulkReadLimit == DEFAULT_BULK_READ_LIMIT
      ensures Timeout == DEFAULT_TIMEOUT
    {
      Kind := kind;
      Backend := backend;
      MaxReadResult := DEFAULT_MAX_READ_RESULT;
      BulkReadLimit := DEFAULT_BULK_READ_LIMIT;
      Timeout := DEFAULT_TIMEOUT;
    }

    /** The abstract `GetRows(schemaName, tableName, maxResult)`, dispatched
      to the drive's driver; both drivers cap alike. */
    method GetRows(schemaName: NString, tableName: NString, maxResult: int) returns (rows: seq<PSObject>)
      ensures rows == CappedRows(Backend(Command(SelectForTable(tableName), [])), maxResult)
    {
      match Kind
      case Oracle =>
        rows := OracleDrive.GetRows(Backend, schemaName, tableName, maxResult);
      case PostgreSql =>
        rows := PgDrive.GetRows(Backend, schemaName, tableName, maxResult);
    }

    /** `GetRows(schemaName, tableName)`: re-yields, one by one, what the
        three-argument `GetRows` yields under the drive's `MaxReadResult`. */
    method GetRowsDefault(schemaName: NString, tableName: NString) returns (rows: seq<PSObject>)
      ensures rows == CappedRows(Backend(Command(SelectForTable(tableName), [])), MaxReadResult)
    {
      var source := GetRows(schemaName, tableName, MaxReadResult);
      rows := [];
      var i := 0;
      while i < |source|
        invariant 0 <= i <= |source|
        invariant rows == source[..i]
      {
        rows := rows + [source[i]];
        i := i + 1;
      }
      assert source[..i] == source;
    }

    /** `GetRow`: never finds a row. */
    function GetRow(schemaName: NString, tableName: NString, row: NString): (r: Option<PSObject>)
      ensures r.None?
    {
      None
    }
  }

  /** The dynamic parameters of `New-PSDrive` (`DatabaseParameters`). */
  datatype DatabaseParameters = DatabaseParameters(Provider: NString, ConnectionString: NString)

  /** `DatabaseDriveInfoFactory.NewInstance`: a new Oracle drive with default
      limits, or the factory's `ArgumentException`; null parameters are
      dereferenced. */
  method NewInstance(parameters: Option<DatabaseParameters>, backend: Backend) returns (r: Result<DatabaseDriveInfo>)
    ensures parameters.None? ==> r == Throw(NullReferenceException)
    ensures parameters.Some? ==> (r.Ok? <==> ProviderKind(parameters.value.Provider).Ok?)
    ensures parameters.Some? && r.Throw? ==> r.error == ProviderKind(parameters.value.Provider).error
    ensures r.Ok? ==> fresh(r.value) && r.value.Kind == Oracle && r.value.Backend == backend
    ensures r.Ok? ==> r.value.MaxReadResult == DEFAULT_MAX_READ_RESULT &&
                      r.value.BulkReadLimit == DEFAULT_BULK_READ_LIMIT &&
                      r.value.Timeout == DEFAULT_TIMEOUT
  {
    if parameters.None? {
      return Throw(NullReferenceException);
    }
    var kind := ProviderKind(parameters.value.Provider);
    if kind.Throw? {
      return Throw(kind.error);
    }
    var drive := new DatabaseDriveInfo(kind.value, backend);
    return Ok(drive);
  }
}
