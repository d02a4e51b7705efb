/** The `Invoke-Query` cmdlet: it sends an arbitrary query, with named
    parameters taken from a hashtable, and writes the records the query
    yields to the pipeline, at most `MaxResult` of them when that is
    positive. The query manager that runs the query is not part of this
    model: the records it yields for a query, its parameters and a timeout
    are a function handed to `ProcessRecord`. */
module InvokeQuery {
  import opened Common
  import opened DataModel
  import Readers

  /** A C# `int`. */
  type Int32 = x: int | -0x8000_0000 <= x < 0x8000_0000

  /** A PowerShell `Hashtable`: a key is any non-null object, here a value
      of the reader's kinds; a hashtable has no null keys and no two equal
      keys, which a `map` captures. */
  type Hashtable = map<Value, Value>

  /** The records `QueryForObjects(query, namedParameters, timeout)` yields,
      in order. */
  type QueryRunner = (string, map<string, Value>, Int32) -> seq<PSObject>

  /** `Parameters.Cast<DictionaryEntry>().ToDictionary(kvp => (string) kvp.Key,
      kvp => kvp.Value)`: a null hashtable is refused by `Cast`, a key that is
      not a string fails its cast, and otherwise every entry is kept under
      its key's text with its value unchanged. */
  function NamedParameters(parameters: Option<Hashtable>): (r: Result<map<string, Value>>)
    ensures parameters.None? ==> r == Throw(ArgumentNullException("source"))
    ensures parameters.Some? ==>
      (r.Ok? <==> forall k :: k in parameters.value ==> k.VString?)
    ensures r.Throw? && parameters.Some? ==> r.error == InvalidCastException
    ensures r.Ok? ==> forall k :: k in parameters.value ==>
      k.str in r.value && r.value[k.str] == parameters.value[k]
    ensures r.Ok? ==> forall s :: s in r.value ==> VString(s) in parameters.value
  {
    if parameters.None? then Throw(ArgumentNullException("source"))
    else
      var h := parameters.value;
      if exists k :: k in h && !k.VString? then Throw(InvalidCastException)
      else Ok(map k | k in h :: k.str := h[k])
  }

  /** Converting a hashtable of string keys and converting back loses
      nothing: the dictionary holds exactly the hashtable's entries. */
  lemma NamedParametersRoundTrip(h: Hashtable)
    requires forall k :: k in h ==> k.VString?
    ensures NamedParameters(Some(h)).Ok?
    ensures (map s | s in NamedParameters(Some(h)).value :: VString(s) := NamedParameters(Some(h)).value[s]) == h
  {
    var m := NamedParameters(Some(h)).value;
    var back := map s | s in m :: VString(s) := m[s];
    forall k | k in h
      ensures k in back && back[k] == h[k]
    {
      assert k == VString(k.str);
    }
    assert back == h;
  }

  /** The records the counter loop of `ProcessRecord` writes: the first
      `maxResult` when that is positive, all of them otherwise, since a
      counter starting at 1 never equals a cap of 0 or less. */
  function Written(records: seq<PSObject>, maxResult: Int32): seq<PSObject> {
    if maxResult >= 1 && maxResult < |records| then records[..maxResult] else records
  }

  /** With a positive cap exactly min(cap, n) records are written, with any
      other cap all n; either way they are the first ones, in query order. */
  lemma WrittenCount(records: seq<PSObject>, maxResult: Int32)
    ensures maxResult >= 1 ==> |Written(records, maxResult)| == Min(maxResult, |records|)
    ensures maxResult <= 0 ==> Written(records, maxResult) == records
    ensures Written(records, maxResult) <= records
  {
  }

  /** A smaller positive cap writes a prefix of what a larger one writes. */
  lemma WrittenMonotone(records: seq<PSObject>, m1: Int32, m2: Int32)
    requires 1 <= m1 <= m2
    ensures Written(records, m1) <= Written(records, m2)
  {
  }

  /** The cmdlet and the drivers agree on a positive cap, and disagree on
      any other: the cmdlet then writes every record, the drivers none. A
      reader's records, uncapped, are `CappedRows` with the reader's own
      length as the cap. */
  lemma CapsAgreeOnlyWhenPositive(reader: seq<ReaderRow>, maxResult: Int32)
    ensures var all := Readers.CappedRows(reader, |reader|);
      maxResult >= 1 ==> Written(all, maxResult) == Readers.CappedRows(reader, maxResult)
    ensures var all := Readers.CappedRows(reader, |reader|);
      maxResult <= 0 ==> Written(all, maxResult) == all && Readers.CappedRows(reader, maxResult) == []
  {
  }

  /** The connection the cmdlet opens; only its disposal is observed. */
  class DbConnection {
    var Disposed: bool

    constructor ()
      ensures !Disposed
    {
      Disposed := false;
    }

    method Dispose()
      modifies this`Disposed
      ensures Disposed
    {
      Disposed := true;
    }
  }

  class InvokeQueryCmdlet {
    var Query: string
    /** `Parameters`, an empty hashtable unless one is bound. */
    var Parameters: Option<Hashtable>
    var MaxResult: Int32
    var Timeout: Int32
    var CurrentConnection: DbConnection?
    /** What `WriteObject` has sent down the pipeline so far. */
    var Output: seq<PSObject>

    /** The cmdlet as bound: the defaults of the optional parameters are an
        empty hashtable, no cap and a 60-second timeout. */
    constructor (query: string, connection: DbConnection?)
      ensures Query == query && CurrentConnection == connection
      ensures Parameters == Some(map[]) && MaxResult == 0 && Timeout == 60
      ensures Output == []
    {
      Query := query;
      Parameters := Some(map[]);
      MaxResult := 0;
      Timeout := 60;
      CurrentConnection := connection;
      Output := [];
    }

    /** `ProcessRecord`: converts the parameters, runs the query and writes
        its records one at a time, stopping once the counter reaches
        `MaxResult`. A failed conversion throws before anything is written. */
    method ProcessRecord(run: QueryRunner) returns (error: Option<Exception>)
      modifies this`Output
      ensures NamedParameters(Parameters).Throw? ==>
        error == Some(NamedParameters(Parameters).error) && Output == old(Output)
      ensures NamedParameters(Parameters).Ok? ==>
        error.None? &&
        Output == old(Output) + Written(run(Query, NamedParameters(Parameters).value, Timeout), MaxResult)
    {
      var converted := NamedParameters(Parameters);
      if converted.Throw? {
        return Some(converted.error);
      }
      var namedParameters := converted.value;
      var records := run(Query, namedParameters, Timeout);
      var count := 1;
      var i := 0;
      while i < |records|
        invariant 0 <= i <= |records|
        invariant count == i + 1
        invariant MaxResult >= 1 ==> i < MaxResult
        invariant Output == old(Output) + records[..i]
      {
        Output := Output + [records[i]];
        assert records[..i + 1] == records[..i] + [records[i]];
        if count == MaxResult as int {
          return None;
        }
        count := count + 1;
        i := i + 1;
      }
      assert records[..i] == records;
      error := None;
    }

    /** `EndProcessing`: disposes the connection when there is one. */
    method EndProcessing()
      modifies CurrentConnection
      ensures CurrentConnection != null ==> CurrentConnection.Disposed
    {
      if CurrentConnection != null {
        CurrentConnection.Dispose();
      }
    }
  }
}
