/** The path helpers of the first-generation provider
    (`PowerShellDBDrive.Provider.DatabaseProvider`): separator normalisation,
    drive detection and stripping, splitting a path into segments, the
    segment-count classifier and the SQL text of the table adapter. The
    provider's only state these helpers read is the root of its drive, so
    it is a parameter here. */
module LegacyProvider {
  import opened Common
  import opened NetStrings
  import opened DatabaseUtils

  /** Either spelling of a separator before normalisation. */
  predicate IsSlash(c: char) {
    c == '/' || c == SEPARATOR
  }

  /** `NormalizePath`: every `/` becomes `\`; null and empty paths are
      returned as they are. The `Replace` call is the character map. */
  function NormalizePath(path: NString): (r: NString)
    ensures IsNullOrEmpty(path) ==> r == path
    ensures !IsNullOrEmpty(path) ==> r == Some(MapChar(path.value, '/', SEPARATOR))
  {
    if IsNullOrEmpty(path) then path
    else
      ReplaceCharIsMap(path.value, '/', SEPARATOR);
      Some(Replace(path.value, "/", PATH_SEPARATOR))
  }

  /** A normalised path holds no `/`, keeps its length, and normalising it
      again changes nothing. */
  lemma NormalizePathIdempotent(path: NString)
    ensures NormalizePath(path).Some? <==> path.Some?
    ensures path.Some? ==> |NormalizePath(path).value| == |path.value| && '/' !in NormalizePath(path).value
    ensures NormalizePath(NormalizePath(path)) == NormalizePath(path)
  {
    if !IsNullOrEmpty(path) {
      var r := NormalizePath(path).value;
      assert MapChar(r, '/', SEPARATOR) == r;
    }
  }

  lemma MapCharAbsent(s: string, a: char, b: char)
    requires a !in s
    ensures MapChar(s, a, b) == s
  {
  }

  /** `PathIsDrive`: deleting every occurrence of the root, or of the root
      followed by `\`, leaves nothing. The provider's drive always has a
      non-empty root (its `NewDrive` refuses an empty one). */
  predicate PathIsDrive(path: string, root: string)
    requires root != ""
  {
    Replace(path, root, "") == "" || Replace(path, root + PATH_SEPARATOR, "") == ""
  }

  /** The drive paths, described without `Replace`: the path is the root
      written zero or more times, or the root and a separator written zero
      or more times. */
  lemma PathIsDriveIff(path: string, root: string)
    requires root != ""
    ensures PathIsDrive(path, root) <==>
      IsRepetition(path, root) || IsRepetition(path, root + PATH_SEPARATOR)
  {
    ReplaceToEmptyIff(path, root);
    ReplaceToEmptyIff(path, root + PATH_SEPARATOR);
  }

  /** The root alone, the root with a separator and the empty path are
      drives; so is the root written twice, a consequence of deleting every
      occurrence rather than a prefix. */
  lemma DrivePaths(root: string)
    requires root != ""
    ensures PathIsDrive(root, root)
    ensures PathIsDrive(root + PATH_SEPARATOR, root)
    ensures PathIsDrive("", root)
    ensures PathIsDrive(root + root, root)
  {
    PathIsDriveIff(root, root);
    PathIsDriveIff(root + PATH_SEPARATOR, root);
    PathIsDriveIff(root + root, root);
    assert StartsWith(root, root) && root[|root|..] == "";
    var rs := root + PATH_SEPARATOR;
    assert StartsWith(rs, rs) && rs[|rs|..] == "";
    var rr := root + root;
    assert StartsWith(rr, root) && rr[|root|..] == root;
  }

  /** `StripDriveFromPath`: the part of the path after the first
      case-insensitive occurrence of the drive root, provided the root occurs
      ordinally; the path unchanged otherwise; empty for a null or empty
      path. `drive` is the root of the provider's drive, `None` when the
      provider has no drive (the root is then the empty string). */
  function StripDriveFromPath(path: NString, drive: NString): (r: string)
    ensures IsNullOrEmpty(path) ==> r == ""
    ensures !IsNullOrEmpty(path) ==> EndsWith(path.value, r)
    ensures !IsNullOrEmpty(path) && !Contains(path.value, OrEmpty(drive)) ==> r == path.value
  {
    if IsNullOrEmpty(path) then ""
    else
      var p, root := path.value, OrEmpty(drive);
      if Contains(p, root) then
        IgnoreCaseFindsNoLater(p, root);
        var i := IndexOf(p, root, true);
        assert p[|p| - |p[i + |root|..]|..] == p[i + |root|..];
        p[i + |root|..]
      else
        assert p[|p| - |p|..] == p;
        p
  }

  /** When the root occurs ordinally, what is kept is the part after the
      first case-insensitive occurrence, which may come before the first
      ordinal one. */
  lemma StripDriveAfterFirstMatch(p: string, root: string, i: int)
    requires p != "" && Contains(p, root)
    requires OccursAt(p, root, i, true)
    requires forall j :: 0 <= j < i ==> !OccursAt(p, root, j, true)
    ensures StripDriveFromPath(Some(p), Some(root)) == p[i + |root|..]
  {
    IgnoreCaseFindsNoLater(p, root);
    var k := IndexOf(p, root, true);
    assert OccursAt(p, root, k, true);
    assert forall j :: 0 <= j < k ==> !OccursAt(p, root, j, true);
    if k < i {
      assert false;
    } else if k > i {
      assert false;
    }
  }

  /** `"xABab"` with the root `"ab"`: the case-insensitive match at index 1
      wins over the ordinal one at index 3. */
  lemma StripDriveIgnoresCaseOfFirstMatch()
    ensures StripDriveFromPath(Some("xABab"), Some("ab")) == "ab"
  {
    var p, root := "xABab", "ab";
    assert p[3..5] == root;
    ContainsIff(p, root, 3);
    assert Fold(p[1..3]) == Fold(root);
    assert !OccursAt(p, root, 0, true) by {
      assert p[0..2] == "xA";
    }
    StripDriveAfterFirstMatch(p, root, 1);
    assert p[3..] == "ab";
  }

  /** Writing the root in front of a path and stripping the drive gives the
      path back. */
  lemma StripDriveFromPrefixedPath(root: string, rest: string)
    requires root + rest != ""
    ensures StripDriveFromPath(Some(root + rest), Some(root)) == rest
  {
    var p := root + rest;
    assert p[0..0 + |root|] == root;
    assert OccursAt(p, root, 0, false);
    ContainsIff(p, root, 0);
    assert OccursAt(p, root, 0, true);
    assert IndexOf(p, root, true) == 0;
    assert p[|root|..] == rest;
  }

  /** Without a drive every path is returned as it is. */
  lemma StripDriveWithoutDrive(path: string)
    requires path != ""
    ensures StripDriveFromPath(Some(path), None) == path
  {
    assert path[0..0] == "";
    ContainsIff(path, "", 0);
    assert OccursAt(path, "", 0, true);
  }

  /** A path in which the root does not occur is returned as it is. */
  lemma StripDriveAbsentRoot(path: string, root: string)
    requires path != "" && !Contains(path, root)
    ensures StripDriveFromPath(Some(path), Some(root)) == path
  {
  }

  /** `ChunkPath`: normalise, delete every occurrence of the root followed by
      a separator, split on the separator. */
  function ChunkPath(path: string, root: string): (chunks: seq<string>)
    requires root != ""
    ensures |chunks| >= 1
    ensures forall k :: 0 <= k < |chunks| ==> SEPARATOR !in chunks[k]
  {
    var normalPath := OrEmpty(NormalizePath(Some(path)));
    var pathNoDrive := Replace(normalPath, root + PATH_SEPARATOR, "");
    SplitPiecesHaveNoSeparator(pathNoDrive, SEPARATOR);
    Split(pathNoDrive, SEPARATOR)
  }

  /** Deleting `t` from `t + rest` starts by deleting the leading copy. */
  lemma ReplaceLeading(t: string, rest: string)
    requires t != ""
    ensures Replace(t + rest, t, "") == Replace(rest, t, "")
  {
    var s := t + rest;
    assert s[..|t|] == t;
    assert s[|t|..] == rest;
  }

  /** The segments written after the root and a separator come back out of
      `ChunkPath`, provided no segment holds a separator of either spelling
      and the root followed by a separator does not reappear after it. */
  lemma ChunkPathRecoversSegments(root: string, segments: seq<string>)
    requires root != "" && '/' !in root
    requires |segments| >= 1
    requires forall k :: 0 <= k < |segments| ==> SEPARATOR !in segments[k] && '/' !in segments[k]
    requires !Contains(Join(segments, SEPARATOR), root + PATH_SEPARATOR)
    ensures ChunkPath(root + PATH_SEPARATOR + Join(segments, SEPARATOR), root) == segments
  {
    var joined := Join(segments, SEPARATOR);
    JoinHasNoSlash(segments);
    var path := root + PATH_SEPARATOR + joined;
    assert '/' !in path;
    MapCharAbsent(path, '/', SEPARATOR);
    assert OrEmpty(NormalizePath(Some(path))) == path;
    ReplaceLeading(root + PATH_SEPARATOR, joined);
    ReplaceAbsent(joined, root + PATH_SEPARATOR, "");
    SplitJoin(segments, SEPARATOR);
  }

  lemma {:induction false} JoinHasNoSlash(parts: seq<string>)
    requires forall k :: 0 <= k < |parts| ==> '/' !in parts[k]
    ensures '/' !in Join(parts, SEPARATOR)
    decreases |parts|
  {
    if |parts| > 1 {
      JoinHasNoSlash(parts[1..]);
    }
  }

  /** A path whose slashes, of either spelling, only ever separate
      non-empty segments: none first, none last, never two in a row. */
  predicate SlashesSeparate(s: string) {
    s != "" && !IsSlash(s[0]) && !IsSlash(s[|s| - 1]) &&
    forall i :: 0 <= i < |s| - 1 ==> !(IsSlash(s[i]) && IsSlash(s[i + 1]))
  }

  predicate NoEmptyPiece(pieces: seq<string>) {
    forall k :: 0 <= k < |pieces| ==> pieces[k] != ""
  }

  /** Splitting the normalised path yields no empty element exactly when
      the path's slashes only separate segments. */
  lemma ValidPathPieces(path: string)
    requires path != ""
    ensures NoEmptyPiece(Split(NormalizePath(Some(path)).value, SEPARATOR)) <==> SlashesSeparate(path)
  {
    var normalPath := NormalizePath(Some(path)).value;
    AllPiecesNonEmpty(normalPath, SEPARATOR);
    assert forall i :: 0 <= i < |normalPath| ==> (normalPath[i] == SEPARATOR <==> IsSlash(path[i]));
  }

  /** `IsValidPath`: a null or empty path is invalid; otherwise the
      normalised path is split on the separator and an empty element makes
      it invalid. */
  method IsValidPath(path: NString) returns (valid: bool)
    ensures valid <==> !IsNullOrEmpty(path) && SlashesSeparate(path.value)
  {
    if IsNullOrEmpty(path) {
      return false;
    }
    var normalPath := NormalizePath(path).value;
    var elements := Split(normalPath, SEPARATOR);
    ValidPathPieces(path.value);
    var k := 0;
    while k < |elements|
      invariant 0 <= k <= |elements|
      invariant forall j :: 0 <= j < k ==> elements[j] != ""
    {
      if |elements[k]| == 0 {
        return false;
      }
      k := k + 1;
    }
    return true;
  }

  /** The error `TableNameIsValid` writes for a rejected table name. */
  function TableNameError(name: string): ErrorRecord {
    ErrorRecord(ArgumentException("Table name not valid"), "TableNameNotValid", Some(name))
  }

  /** The error `SchemaNameIsValid` writes for a rejected schema name: it
      reuses the table error's identifier. */
  function SchemaNameError(name: string): ErrorRecord {
    ErrorRecord(ArgumentException("Schema name not valid"), "TableNameNotValid", Some(name))
  }

  /** The error written for a path of more than three segments. */
  function TooManySegmentsError(path: string): ErrorRecord {
    ErrorRecord(ArgumentException("The path supplied has too many segments"), "PathNotValid", Some(path))
  }

  /** `TableNameIsValid`: the name check, writing an error when it fails. */
  method TableNameIsValid(name: string) returns (valid: bool, errors: seq<ErrorRecord>)
    ensures valid == NameIsValid(name)
    ensures valid <==> errors == []
    ensures !valid ==> errors == [TableNameError(name)]
  {
    valid := NameIsValid(name);
    errors := if valid then [] else [TableNameError(name)];
  }

  /** `SchemaNameIsValid`: the same check with the schema's message. */
  method SchemaNameIsValid(name: string) returns (valid: bool, errors: seq<ErrorRecord>)
    ensures valid == NameIsValid(name)
    ensures valid <==> errors == []
    ensures !valid ==> errors == [SchemaNameError(name)]
  {
    valid := NameIsValid(name);
    errors := if valid then [] else [SchemaNameError(name)];
  }

  /** `GetNamesFromPath`: a drive path is the database; otherwise the
      segment count selects a `case` of the switch, and each case falls
      through to the one below it with `goto case`. The last case reached
      assigns `Schema`, so a path that passes every name check is a schema
      whatever its depth; a failed check returns `Invalid` with the out
      parameters assigned so far (the key included). */
  method GetNamesFromPath(path: string, root: string)
    returns (kind: PathType, schemaName: NString, tableName: NString, key: NString, errors: seq<ErrorRecord>)
    requires root != ""
    ensures kind == Database <==> PathIsDrive(path, root)
    ensures kind == Database || kind == Schema || kind == Invalid
    ensures PathIsDrive(path, root) ==> schemaName == None && tableName == None && key == None && errors == []
    ensures !PathIsDrive(path, root) && |ChunkPath(path, root)| > 3 ==>
      kind == Invalid && schemaName == None && tableName == None && key == None &&
      errors == [TooManySegmentsError(path)]
    ensures !PathIsDrive(path, root) && |ChunkPath(path, root)| <= 3 ==>
      var c := ChunkPath(path, root);
      (kind == Schema <==> NameIsValid(c[0]) && (|c| >= 2 ==> NameIsValid(c[1]))) &&
      key == (if |c| == 3 then Some(c[2]) else None) &&
      tableName == (if |c| >= 2 && NameIsValid(c[1]) then Some(c[1]) else None) &&
      schemaName == (if kind == Schema then Some(c[0]) else None) &&
      errors == (if |c| >= 2 && !NameIsValid(c[1]) then [TableNameError(c[1])]
                 else if !NameIsValid(c[0]) then [SchemaNameError(c[0])]
                 else [])
  {
    kind, schemaName, tableName, key, errors := Invalid, None, None, None, [];
    if PathIsDrive(path, root) {
      return Database, None, None, None, [];
    }
    var chunks := ChunkPath(path, root);
    var valid: bool;
    if |chunks| > 3 {
      errors := [TooManySegmentsError(path)];
      return;
    }
    if |chunks| == 3 {
      key := Some(chunks[2]);
      kind := Row;
    }
    if |chunks| >= 2 {
      valid, errors := TableNameIsValid(chunks[1]);
      if !valid {
        return Invalid, schemaName, tableName, key, errors;
      }
      tableName := Some(chunks[1]);
      kind := Table;
    }
    valid, errors := SchemaNameIsValid(chunks[0]);
    if !valid {
      return Invalid, schemaName, tableName, key, errors;
    }
    schemaName := Some(chunks[0]);
    kind := Schema;
  }

  /** `s` written `k` times. */
  function Repeat(s: string, k: nat): string {
    if k == 0 then "" else Repeat(s, k - 1) + s
  }

  /** `?, ?, …, ?` with `n` placeholders. */
  function Placeholders(n: nat): string
    requires n >= 1
  {
    if n == 1 then "?" else Placeholders(n - 1) + ", ?"
  }

  /** The insert statement for `n` columns; with no column the trimming of
      the last `", "` eats the opening parenthesis and the space after it
      instead, leaving `values )`. */
  function InsertCommandText(tableName: string, n: nat): string {
    if n == 0 then "Insert into " + tableName + " values )"
    else "Insert into " + tableName + " values ( " + Placeholders(n) + ")"
  }

  lemma {:induction false} RepeatIsPlaceholders(n: nat)
    requires n >= 1
    ensures Repeat("?, ", n) == Placeholders(n) + ", "
  {
    if n > 1 {
      RepeatIsPlaceholders(n - 1);
    }
  }

  /** The insert statement of the adapter: one `"?, "` per column appended in
      a loop, then the last two characters cut and `)` appended. */
  method BuildInsertCommand(tableName: string, columnCount: nat) returns (sql: string)
    ensures sql == InsertCommandText(tableName, columnCount)
  {
    var prefix := "Insert into " + tableName + " values ( ";
    sql := prefix;
    var i := 0;
    while i < columnCount
      invariant 0 <= i <= columnCount
      invariant sql == prefix + Repeat("?, ", i)
    {
      sql := sql + "?, ";
      i := i + 1;
    }
    if columnCount >= 1 {
      RepeatIsPlaceholders(columnCount);
      assert sql == prefix + Placeholders(columnCount) + ", ";
      assert sql[..|sql| - 2] == prefix + Placeholders(columnCount);
    } else {
      assert sql == prefix;
      assert sql[..|sql| - 2] == "Insert into " + tableName + " values ";
    }
    sql := sql[..|sql| - 2];
    sql := sql + ")";
  }

  /** How many times `c` occurs in `s`. */
  function CountChar(s: string, c: char): nat {
    if s == "" then 0 else (if s[0] == c then 1 else 0) + CountChar(s[1..], c)
  }

  lemma {:induction false} CountCharAppend(a: string, b: string, c: char)
    ensures CountChar(a + b, c) == CountChar(a, c) + CountChar(b, c)
    decreases |a|
  {
    if a != "" {
      assert (a + b)[0] == a[0];
      assert (a + b)[1..] == a[1..] + b;
      CountCharAppend(a[1..], b, c);
    } else {
      assert a + b == b;
    }
  }

  lemma {:induction false} PlaceholderCount(n: nat)
    requires n >= 1
    ensures CountChar(Placeholders(n), '?') == n
  {
    if n > 1 {
      PlaceholderCount(n - 1);
      CountCharAppend(Placeholders(n - 1), ", ?", '?');
    }
  }

  lemma {:induction false} CountCharAbsent(s: string, c: char)
    requires c !in s
    ensures CountChar(s, c) == 0
    decreases |s|
  {
    if s != "" {
      CountCharAbsent(s[1..], c);
    }
  }

  /** For a valid table name the insert statement holds exactly one `?` per
      column. */
  lemma InsertCommandPlaceholders(tableName: string, n: nat)
    requires NameIsValid(tableName)
    ensures CountChar(InsertCommandText(tableName, n), '?') == n
  {
    NameHasNoQuestionMark(tableName);
    if n == 0 {
      CountCharAbsent(InsertCommandText(tableName, n), '?');
    } else {
      var prefix := "Insert into " + tableName + " values ( ";
      CountCharAbsent(prefix, '?');
      CountCharAbsent(")", '?');
      PlaceholderCount(n);
      CountCharAppend(prefix, Placeholders(n), '?');
      CountCharAppend(prefix + Placeholders(n), ")", '?');
    }
  }

  lemma NameHasNoQuestionMark(name: string)
    requires NameIsValid(name)
    ensures '?' !in name
  {
    NameIsValidIff(name);
    if |name| > 1 && name[|name| - 1] == '\n' {
      assert forall i :: 0 <= i < |name| - 1 ==> name[..|name| - 1][i] == name[i];
    }
  }

  /** The commands the adapter of a table carries: the select statement,
      the delete statement with its parameter bound to the `ID` column, and
      the insert statement with one parameter per column caption. */
  datatype DataAdapter = DataAdapter(
    selectCommand: string,
    deleteCommand: string,
    deleteParameterSource: string,
    insertCommand: string,
    insertParameterSources: seq<string>)

  /** `GetAdapterForTable`: nothing is built without a database drive, a
      valid table name and a table that is present; otherwise the three
      commands. `hasDrive` says whether the provider's drive is a database
      drive, `tableIsPresent` is the answer of `TableIsPresent` (asked only
      once the name is valid) and `columnCaptions` are the captions of the
      columns the adapter reads from the table's schema. */
  method GetAdapterForTable(tableName: string, hasDrive: bool, tableIsPresent: bool, columnCaptions: seq<string>)
    returns (adapter: Option<DataAdapter>, errors: seq<ErrorRecord>)
    ensures adapter.Some? <==> hasDrive && NameIsValid(tableName) && tableIsPresent
    ensures errors == if hasDrive && !NameIsValid(tableName) then [TableNameError(tableName)] else []
    ensures adapter.Some? ==>
      adapter.value.selectCommand == "Select * from " + tableName &&
      adapter.value.deleteCommand == "Delete from " + tableName + " where ID = ?" &&
      adapter.value.deleteParameterSource == "ID" &&
      adapter.value.insertCommand == InsertCommandText(tableName, |columnCaptions|) &&
      adapter.value.insertParameterSources == columnCaptions
  {
    errors := [];
    if !hasDrive {
      return None, [];
    }
    var valid;
    valid, errors := TableNameIsValid(tableName);
    if !valid || !tableIsPresent {
      return None, errors;
    }
    var select := "Select * from " + tableName;
    var delete := "Delete from " + tableName + " where ID = ?";
    var insert := BuildInsertCommand(tableName, |columnCaptions|);
    adapter := Some(DataAdapter(select, delete, "ID", insert, columnCaptions));
  }
}
