/** The navigation provider (`src/DatabaseProvider.cs`): the path algebra
    PowerShell asks of a provider (`MakePath`, `GetParentPath`,
    `NormalizeRelativePath`), the node-kind tables (`HasChildItems`,
    `IsItemContainer`, `ItemExists`) and the item enumerations (`GetItem`,
    `GetChildItems`, `GetChildNames`), which write to the host.

    The path classifier `PathDescriptor`, `DatabaseUtils.NormalizePath`,
    `RemoveDriveFromPath` and `PATH_VALIDATOR` are not part of this model:
    they are function-valued fields of `Collaborators`. The drive the
    provider talks to is a `Driver`, a record of the answers its interface
    gives. What the provider writes to the host (`WriteItemObject`) is the
    `Output` sequence of the provider object; what it throws is an
    `Exception`. */
module NavigationProvider {
  import opened Common
  import opened NetStrings
  import DataModel
  import Readers
  import Drives
  import DatabaseUtils

  /** The path kinds the navigation provider switches on. */
  datatype PathType = Root | Database | Schema | ObjectType | Object | Row | Invalid

  /** What `new PathDescriptor(path)` makes of a path. */
  datatype PathDescriptor = PathDescriptor(
    pathType: PathType,
    schemaName: NString,
    databaseObjectType: DataModel.ObjectType,
    objectPath: Option<seq<NString>>)

  /** The helpers whose bodies this model does not see. */
  datatype Collaborators = Collaborators(
    describe: NString -> PathDescriptor,
    normalizePath: NString -> NString,
    removeDriveFromPath: (NString, string) -> NString,
    pathValidator: string -> bool)

  /** What the provider reads of a schema, table and view record. */
  datatype SchemaInfo = SchemaInfo(SchemaName: NString)
  datatype TableInfo = TableInfo(TableName: NString)
  datatype ViewInfo = ViewInfo(ViewName: NString)

  /** A mounted database drive, seen through its interface: the drive
      root, and what each of its queries answers. */
  datatype Driver = Driver(
    rootDrive: string,
    schemas: seq<SchemaInfo>,
    getSchema: NString -> Result<Option<SchemaInfo>>,
    isSchemaExist: NString -> bool,
    supportedObjectTypes: NString -> seq<DataModel.ObjectType>,
    isObjectExist: (NString, DataModel.ObjectType, Option<seq<NString>>) -> Result<bool>,
    tables: NString -> seq<TableInfo>,
    getTable: (NString, NString) -> Result<Option<TableInfo>>,
    getView: (NString, NString) -> Result<Option<ViewInfo>>,
    rows: (NString, NString) -> seq<DataModel.PSObject>)

  /** The objects the provider writes to the host. */
  datatype Item =
    | DriveItem(root: string)
    | SchemaItem(schema: Option<SchemaInfo>)
    | TableItem(table: Option<TableInfo>)
    | ViewItem(view: Option<ViewInfo>)
    | ObjectTypeItem(objectType: DataModel.ObjectType)
    | RowItem(row: DataModel.PSObject)
    | NameItem(name: NString)
    | TypeCodeItem(typeCode: int)

  /** One `WriteItemObject(item, path, isContainer)` call. */
  datatype Emitted = Emitted(item: Item, path: NString, isContainer: bool)

  /** What an enumeration writes before it ends, and the exception it ends
      with, if any. */
  datatype Outcome = Outcome(items: seq<Emitted>, error: Option<Exception>)

  /** The `PSDriveInfo` handed to `NewDrive`. */
  datatype PSDriveInfo = PSDriveInfo(Name: string, Root: NString)

  const PATH_SEPARATOR: string := DatabaseUtils.PATH_SEPARATOR
  const SEPARATOR: char := DatabaseUtils.SEPARATOR

  /** `ThrowTerminatingInvalidPathException`. */
  function InvalidPathError(path: NString): Exception {
    ArgumentException("Path must represent either a table or a row : " + OrEmpty(path))
  }

  // ---------------------------------------------------------------------
  // Node-kind tables

  /** `IsValidPath`: null and empty paths are invalid; any other path is
      what the validator says. */
  function IsValidPath(c: Collaborators, path: NString): (r: bool)
    ensures IsNullOrEmpty(path) ==> !r
    ensures !IsNullOrEmpty(path) ==> (r <==> c.pathValidator(path.value))
  {
    if IsNullOrEmpty(path) then false else c.pathValidator(path.value)
  }

  /** `HasChildItems`. */
  predicate HasChildItems(c: Collaborators, path: NString) {
    c.describe(path).pathType in {Root, Database, Schema, ObjectType, Object}
  }

  /** `IsItemContainer`. */
  predicate IsItemContainer(c: Collaborators, path: NString) {
    c.describe(path).pathType != Row
  }

  /** Every path with children is a container; only a row is not a
      container; an invalid path is a container without children. */
  lemma NodeKinds(c: Collaborators, path: NString)
    ensures HasChildItems(c, path) ==> IsItemContainer(c, path)
    ensures !IsItemContainer(c, path) <==> c.describe(path).pathType == Row
    ensures HasChildItems(c, path) <==> c.describe(path).pathType !in {Row, Invalid}
    ensures c.describe(path).pathType == Invalid ==> IsItemContainer(c, path) && !HasChildItems(c, path)
  {
  }

  /** `ItemExists`: false without a database drive; true for the database
      and for an object type; the drive's answer for a schema and an
      object; false for a row, the root and an invalid path. */
  function ItemExists(c: Collaborators, drive: Option<Driver>, path: NString): (r: Result<bool>)
    ensures drive.None? ==> r == Ok(false)
    ensures c.describe(path).pathType in {Root, Row, Invalid} ==> r == Ok(false)
    ensures drive.Some? && c.describe(path).pathType in {Database, ObjectType} ==> r == Ok(true)
    ensures drive.Some? && c.describe(path).pathType == Schema ==>
      r == Ok(drive.value.isSchemaExist(c.describe(path).schemaName))
    ensures drive.Some? && c.describe(path).pathType == Object ==>
      var pd := c.describe(path);
      r == drive.value.isObjectExist(pd.schemaName, pd.databaseObjectType, pd.objectPath)
  {
    if drive.None? then Ok(false)
    else
      var pd := c.describe(path);
      match pd.pathType
      case Database => Ok(true)
      case Schema => Ok(drive.value.isSchemaExist(pd.schemaName))
      case ObjectType => Ok(true)
      case Object => drive.value.isObjectExist(pd.schemaName, pd.databaseObjectType, pd.objectPath)
      case _ => Ok(false)
  }

  /** An item that exists has children, so it is a container. */
  lemma ExistingItemsHaveChildren(c: Collaborators, drive: Option<Driver>, path: NString)
    ensures ItemExists(c, drive, path) == Ok(true) ==> HasChildItems(c, path) && IsItemContainer(c, path)
  {
  }

  // ---------------------------------------------------------------------
  // Path algebra

  /** `s.EndsWith("\\")` then `s.Remove(s.Length - 1)`: one trailing
      separator dropped. The test is taken as ordinal; the source's
      overload is culture-sensitive. */
  function DropTrailingSeparator(s: string): (r: string)
    ensures r == s || r + PATH_SEPARATOR == s
    ensures r == s <==> !EndsWith(s, PATH_SEPARATOR)
  {
    if EndsWith(s, PATH_SEPARATOR) then s[..|s| - 1] else s
  }

  /** `s.StartsWith("\\")` then `s.Substring(1)`: one leading separator
      dropped. The test is taken as ordinal; the source's overload is
      culture-sensitive. */
  function DropLeadingSeparator(s: string): (r: string)
    ensures r == s || PATH_SEPARATOR + r == s
    ensures r == s <==> !StartsWith(s, PATH_SEPARATOR)
  {
    if StartsWith(s, PATH_SEPARATOR) then s[1..] else s
  }

  /** `MakePath`: both halves normalised (a null one is dereferenced), one
      trailing separator dropped from the parent and one leading separator
      from the child, then: empty and empty give `""`, an empty parent gives
      the child, an empty child gives the parent and a separator, and two
      non-empty halves are joined by one separator. */
  function MakePath(c: Collaborators, parent: NString, child: NString): (r: Result<string>)
    ensures r.Throw? <==> c.normalizePath(parent).None? || c.normalizePath(child).None?
    ensures r.Throw? ==> r.error == NullReferenceException
    ensures r.Ok? ==>
      var p := DropTrailingSeparator(c.normalizePath(parent).value);
      var q := DropLeadingSeparator(c.normalizePath(child).value);
      && (p == "" ==> r.value == q)
      && (p != "" && q == "" ==> r.value == p + PATH_SEPARATOR)
      && (p != "" && q != "" ==> r.value == p + PATH_SEPARATOR + q)
  {
    var normalParent := c.normalizePath(parent);
    if normalParent.None? then Throw(NullReferenceException)
    else
      var p := DropTrailingSeparator(normalParent.value);
      var normalChild := c.normalizePath(child);
      if normalChild.None? then Throw(NullReferenceException)
      else
        var q := DropLeadingSeparator(normalChild.value);
        if p == "" then
          if q == "" then Ok("") else Ok(q)
        else
          if q == "" then Ok(p + PATH_SEPARATOR) else Ok(p + PATH_SEPARATOR + q)
  }

  /** A path segment: non-empty, with no separator of either kind. */
  predicate Segment(s: string) {
    s != "" && SEPARATOR !in s && '/' !in s
  }

  /** `NormalizePath` leaves alone every path that has no `/`. */
  ghost predicate NormalizeKeepsBackslashPaths(c: Collaborators) {
    forall s: string :: '/' !in s ==> c.normalizePath(Some(s)) == Some(s)
  }

  /** Two segments are joined by exactly one separator. */
  lemma MakePathJoins(c: Collaborators, x: string, y: string)
    requires NormalizeKeepsBackslashPaths(c)
    requires x != "" && y != "" && '/' !in x && '/' !in y
    requires x[|x| - 1] != SEPARATOR && y[0] != SEPARATOR
    ensures MakePath(c, Some(x), Some(y)) == Ok(x + PATH_SEPARATOR + y)
  {
    assert c.normalizePath(Some(x)) == Some(x);
    assert c.normalizePath(Some(y)) == Some(y);
    assert !EndsWith(x, PATH_SEPARATOR) by {
      assert x[|x| - 1..] == [x[|x| - 1]];
    }
    assert !StartsWith(y, PATH_SEPARATOR) by {
      assert y[..1] == [y[0]];
    }
  }

  /** Two segments joined by the separator: no `/`, and the first and last
      characters of the outer segments at the ends. */
  lemma JoinedSegments(a: string, b: string)
    requires Segment(a) && Segment(b)
    ensures var ab := a + PATH_SEPARATOR + b;
      && ab != "" && '/' !in ab
      && ab[0] == a[0] && ab[|ab| - 1] == b[|b| - 1]
  {
    assert a + PATH_SEPARATOR + b == a + (PATH_SEPARATOR + b);
  }

  /** The first and last characters of a segment are not separators. */
  lemma SegmentEnds(a: string)
    requires Segment(a)
    ensures a[0] != SEPARATOR && a[|a| - 1] != SEPARATOR
  {
    assert a[0] in a && a[|a| - 1] in a;
  }

  /** `MakePath` is associative on segments: both ways of joining three
      segments give the same path, with one separator between each. */
  lemma MakePathAssociative(c: Collaborators, x: string, y: string, z: string)
    requires NormalizeKeepsBackslashPaths(c)
    requires Segment(x) && Segment(y) && Segment(z)
    ensures MakePath(c, Some(x), Some(y)) == Ok(x + PATH_SEPARATOR + y)
    ensures MakePath(c, Some(y), Some(z)) == Ok(y + PATH_SEPARATOR + z)
    ensures MakePath(c, Some(x + PATH_SEPARATOR + y), Some(z)) == Ok(x + PATH_SEPARATOR + y + PATH_SEPARATOR + z)
    ensures MakePath(c, Some(x), Some(y + PATH_SEPARATOR + z)) == Ok(x + PATH_SEPARATOR + y + PATH_SEPARATOR + z)
  {
    SegmentEnds(x);
    SegmentEnds(y);
    SegmentEnds(z);
    MakePathJoins(c, x, y);
    MakePathJoins(c, y, z);
    JoinedSegments(x, y);
    MakePathJoins(c, x + PATH_SEPARATOR + y, z);
    JoinedSegments(y, z);
    MakePathJoins(c, x, y + PATH_SEPARATOR + z);
    assert x + PATH_SEPARATOR + (y + PATH_SEPARATOR + z) == x + PATH_SEPARATOR + y + PATH_SEPARATOR + z;
  }

  /** `GetParentPath`. Without a database drive it answers null; a null
      path is dereferenced; the drive root's parent is `""`. Otherwise every
      occurrence of the drive root is removed from the path (an empty drive
      root makes `Replace` throw). When `root` is given and the stripped
      path does not contain it, the answer is `root`; a stripped path with
      no separator has the drive root as its parent; any other has the part
      before its last separator. */
  function GetParentPath(drive: Option<Driver>, path: NString, root: NString): (r: Result<NString>)
    ensures drive.None? ==> r == Ok(None)
    ensures drive.Some? && path.None? ==> r == Throw(NullReferenceException)
    ensures drive.Some? && path == Some(drive.value.rootDrive) ==> r == Ok(Some(""))
    ensures drive.Some? && path.Some? && path.value != drive.value.rootDrive ==>
      (r.Throw? <==> drive.value.rootDrive == "") && (r.Throw? ==> r.error.ArgumentException?)
    ensures drive.Some? && path.Some? && path.value != drive.value.rootDrive && drive.value.rootDrive != "" ==>
      var p := Replace(path.value, drive.value.rootDrive, "");
      && (!IsNullOrEmpty(root) && !Contains(p, root.value) ==> r == Ok(root))
      && ((IsNullOrEmpty(root) || Contains(p, root.value)) && SEPARATOR !in p ==>
            r == Ok(Some(drive.value.rootDrive)))
      && ((IsNullOrEmpty(root) || Contains(p, root.value)) && SEPARATOR in p ==>
            r.Ok? && r.value.Some? &&
            var q := r.value.value;
            |q| < |p| && p[..|q|] == q && p[|q|] == SEPARATOR && SEPARATOR !in p[|q| + 1..])
  {
    if drive.None? then Ok(None)
    else if path.None? then Throw(NullReferenceException)
    else if path.value == drive.value.rootDrive then Ok(Some(""))
    else if drive.value.rootDrive == "" then Throw(ArgumentException("String cannot be of zero length."))
    else
      var p := Replace(path.value, drive.value.rootDrive, "");
      ContainsChar(p, SEPARATOR);
      if !IsNullOrEmpty(root) && !Contains(p, root.value) then Ok(root)
      else if !Contains(p, PATH_SEPARATOR) then Ok(Some(drive.value.rootDrive))
      else Ok(Some(p[..LastIndexOfChar(p, SEPARATOR)]))
  }

  /** Joining a parent and a child segment and asking for the parent gives
      the parent back, when the drive root occurs nowhere in the joined
      path. */
  lemma ParentOfMadePath(c: Collaborators, d: Driver, parent: string, child: string)
    requires NormalizeKeepsBackslashPaths(c)
    requires parent != "" && '/' !in parent && parent[|parent| - 1] != SEPARATOR
    requires Segment(child)
    requires d.rootDrive != "" && !Contains(parent + PATH_SEPARATOR + child, d.rootDrive)
    ensures MakePath(c, Some(parent), Some(child)) == Ok(parent + PATH_SEPARATOR + child)
    ensures GetParentPath(Some(d), Some(parent + PATH_SEPARATOR + child), None) == Ok(Some(parent))
  {
    assert child[0] in child;
    MakePathJoins(c, parent, child);
    var joined := parent + PATH_SEPARATOR + child;
    if joined == d.rootDrive {
      ContainsIff(joined, d.rootDrive, 0);
    }
    ReplaceAbsent(joined, d.rootDrive, "");
    assert joined[|parent|] == SEPARATOR;
    var r := GetParentPath(Some(d), Some(joined), None);
    var q := r.value.value;
    assert joined[..|parent|] == parent;
  }

  /** `NormalizeRelativePath`. Both paths are normalised and stripped of
      the drive (there must be a drive). With no base the stripped path is
      the answer; a null path is dereferenced; a path that does not contain
      the base anywhere gives null; otherwise the answer is the path without
      its first `|base| + 1` characters, which throws when that is more than
      the path holds. */
  function NormalizeRelativePath(c: Collaborators, drive: Option<Driver>, path: NString, basepath: NString): (r: Result<NString>)
    ensures drive.None? ==> r == Throw(NullReferenceException)
    ensures drive.Some? ==>
      var np := c.removeDriveFromPath(c.normalizePath(path), drive.value.rootDrive);
      var nb := c.removeDriveFromPath(c.normalizePath(basepath), drive.value.rootDrive);
      && (IsNullOrEmpty(nb) ==> r == Ok(np))
      && (!IsNullOrEmpty(nb) && np.None? ==> r == Throw(NullReferenceException))
      && (!IsNullOrEmpty(nb) && np.Some? && !Contains(np.value, nb.value) ==> r == Ok(None))
      && (!IsNullOrEmpty(nb) && np.Some? && Contains(np.value, nb.value) ==>
            (r.Throw? <==> |np.value| == |nb.value|) &&
            (r.Throw? ==> r.error == ArgumentOutOfRangeException) &&
            (r.Ok? ==> r.value.Some? && |np.value| == |nb.value| + 1 + |r.value.value| &&
                       EndsWith(np.value, r.value.value)))
  {
    if drive.None? then Throw(NullReferenceException)
    else
      var np := c.removeDriveFromPath(c.normalizePath(path), drive.value.rootDrive);
      var nb := c.removeDriveFromPath(c.normalizePath(basepath), drive.value.rootDrive);
      if IsNullOrEmpty(nb) then Ok(np)
      else if np.None? then Throw(NullReferenceException)
      else if !Contains(np.value, nb.value) then Ok(None)
      else if |nb.value| + |PATH_SEPARATOR| > |np.value| then Throw(ArgumentOutOfRangeException)
      else Ok(Some(np.value[|nb.value| + |PATH_SEPARATOR|..]))
  }

  /** When the stripped path starts with the base and a separator, the
      answer is the rest of the path. */
  lemma RelativeToPrefix(c: Collaborators, d: Driver, path: NString, basepath: NString, base: string, rest: string)
    requires base != ""
    requires c.removeDriveFromPath(c.normalizePath(basepath), d.rootDrive) == Some(base)
    requires c.removeDriveFromPath(c.normalizePath(path), d.rootDrive) == Some(base + PATH_SEPARATOR + rest)
    ensures NormalizeRelativePath(c, Some(d), path, basepath) == Ok(Some(rest))
  {
    var np := base + PATH_SEPARATOR + rest;
    assert np[0..|base|] == base;
    ContainsIff(np, base, 0);
    assert np[|base| + 1..] == rest;
  }

  /** `Contains` is not a prefix test: a base found in the middle of the
      path cuts the path at the base's length, not after the base. */
  lemma RelativeToInnerBase(c: Collaborators, d: Driver, path: NString, basepath: NString)
    requires c.removeDriveFromPath(c.normalizePath(basepath), d.rootDrive) == Some("b")
    requires c.removeDriveFromPath(c.normalizePath(path), d.rootDrive) == Some("a\\b\\c")
    ensures NormalizeRelativePath(c, Some(d), path, basepath) == Ok(Some("b\\c"))
  {
    var np := "a\\b\\c";
    assert np[2..3] == "b";
    ContainsIff(np, "b", 2);
    assert np[2..] == "b\\c";
  }

  // ---------------------------------------------------------------------
  // Enumerations

  /** `pathDescriptor.ObjectPath[0]`. */
  function FirstSegment(objectPath: Option<seq<NString>>): (r: Result<NString>)
    ensures objectPath.None? ==> r == Throw(NullReferenceException)
    ensures objectPath == Some([]) ==> r == Throw(IndexOutOfRangeException)
    ensures objectPath.Some? && objectPath.value != [] ==> r == Ok(objectPath.value[0])
  {
    if objectPath.None? then Throw(NullReferenceException)
    else if objectPath.value == [] then Throw(IndexOutOfRangeException)
    else Ok(objectPath.value[0])
  }

  /** The path written for a schema: `GetRootDrive() + schema.SchemaName`. */
  function SchemaPath(d: Driver, s: SchemaInfo): string {
    d.rootDrive + OrEmpty(s.SchemaName)
  }

  /** The path written for an object type of a schema path. */
  function ObjectTypePath(d: Driver, pd: PathDescriptor, t: DataModel.ObjectType): string {
    d.rootDrive + OrEmpty(pd.schemaName) + PATH_SEPARATOR + DataModel.ObjectTypeName(t)
  }

  /** The path written for a table of an object-type path. */
  function TablePath(d: Driver, pd: PathDescriptor, t: TableInfo): string {
    d.rootDrive + OrEmpty(pd.schemaName) + PATH_SEPARATOR +
    DataModel.ObjectTypeName(pd.databaseObjectType) + PATH_SEPARATOR + OrEmpty(t.TableName)
  }

  /** How deep `GetChildItems` may still recurse below a path of this kind. */
  function Rank(t: PathType): nat {
    match t
    case Database => 2
    case ObjectType => 1
    case _ => 0
  }

  /** The classifier sends the path written for a schema to a kind below
      the database, and the path written for a table to a kind below the
      object type: the recursion of `GetChildItems` goes down the tree. */
  ghost predicate Layered(c: Collaborators, d: Driver) {
    && (forall s :: s in d.schemas ==> SchemaIsBelowDatabase(c, d, s))
    && (forall path: NString, t: TableInfo :: ListedTable(c, d, path, t) ==> TableIsLeaf(c, d, path, t))
  }

  /** The path written for schema `s` is classified below the database. */
  ghost predicate SchemaIsBelowDatabase(c: Collaborators, d: Driver, s: SchemaInfo) {
    Rank(c.describe(Some(SchemaPath(d, s))).pathType) < 2
  }

  /** `path` is an object-type path and `t` one of the tables listed under it. */
  ghost predicate ListedTable(c: Collaborators, d: Driver, path: NString, t: TableInfo) {
    c.describe(path).pathType == ObjectType && t in d.tables(c.describe(path).schemaName)
  }

  /** The path written for table `t` under `path` is classified as a leaf. */
  ghost predicate TableIsLeaf(c: Collaborators, d: Driver, path: NString, t: TableInfo) {
    Rank(c.describe(Some(TablePath(d, c.describe(path), t))).pathType) == 0
  }

  /** One enumeration after another: the second runs only if the first did
      not throw. */
  function Then(a: Outcome, b: Outcome): Outcome {
    if a.error.Some? then a else Outcome(a.items + b.items, b.error)
  }

  /** `GetChildItems(path, recurse)` against a drive: what it writes and
      the exception it ends with. The database lists its schemas, a schema
      its object types, an object type its tables and an object the rows of
      its table; with `recurse` each schema and each table is followed by
      its own children. Any other kind of path is refused. */
  function ChildItems(c: Collaborators, d: Driver, path: NString, recurse: bool): Outcome
    requires Layered(c, d)
    decreases Rank(c.describe(path).pathType), 2
  {
    var pd := c.describe(path);
    match pd.pathType
    case Database => SchemaRun(c, d, |d.schemas|, recurse)
    case Schema => Outcome(ObjectTypeEntries(d, pd, d.supportedObjectTypes(pd.schemaName)), None)
    case ObjectType => TableRun(c, d, path, |d.tables(pd.schemaName)|, recurse)
    case Object =>
      (match FirstSegment(pd.objectPath)
       case Throw(e) => Outcome([], Some(e))
       case Ok(table) => Outcome(RowEntries(d.rows(pd.schemaName, table), path), None))
    case _ => Outcome([], Some(InvalidPathError(path)))
  }

  /** The first `n` passes of the schema loop: it stops after the first
      pass that throws. */
  function SchemaRun(c: Collaborators, d: Driver, n: nat, recurse: bool): Outcome
    requires Layered(c, d) && n <= |d.schemas|
    decreases 2, 1, n
  {
    if n == 0 then Outcome([], None)
    else Then(SchemaRun(c, d, n - 1, recurse), SchemaStep(c, d, d.schemas[n - 1], recurse))
  }

  /** One schema: written at its path as a container, then its children. */
  function SchemaStep(c: Collaborators, d: Driver, s: SchemaInfo, recurse: bool): Outcome
    requires Layered(c, d) && s in d.schemas
    decreases 2, 0
  {
    var head := [Emitted(SchemaItem(Some(s)), Some(SchemaPath(d, s)), true)];
    if recurse then
      var sub := ChildItems(c, d, Some(SchemaPath(d, s)), recurse);
      Outcome(head + sub.items, sub.error)
    else Outcome(head, None)
  }

  /** The first `n` passes of the table loop of an object-type path: it
      stops after the first pass that throws. */
  function TableRun(c: Collaborators, d: Driver, path: NString, n: nat, recurse: bool): Outcome
    requires Layered(c, d) && c.describe(path).pathType == ObjectType
    requires n <= |d.tables(c.describe(path).schemaName)|
    decreases 1, 1, n
  {
    if n == 0 then Outcome([], None)
    else
      var ts := d.tables(c.describe(path).schemaName);
      Then(TableRun(c, d, path, n - 1, recurse), TableStep(c, d, path, ts[n - 1], recurse))
  }

  /** One table: written at its path as a container, then its rows. */
  function TableStep(c: Collaborators, d: Driver, path: NString, t: TableInfo, recurse: bool): Outcome
    requires Layered(c, d) && ListedTable(c, d, path, t)
    decreases 1, 0
  {
    var p := TablePath(d, c.describe(path), t);
    var head := [Emitted(TableItem(Some(t)), Some(p), true)];
    if recurse then
      var sub := ChildItems(c, d, Some(p), recurse);
      Outcome(head + sub.items, sub.error)
    else Outcome(head, None)
  }

  /** One more pass of the schema loop, after passes that did not throw,
      appends that pass's items and ends with its exception. */
  lemma SchemaRunStep(c: Collaborators, d: Driver, i: nat, recurse: bool)
    requires Layered(c, d) && i < |d.schemas|
    requires SchemaRun(c, d, i, recurse).error.None?
    ensures SchemaRun(c, d, i + 1, recurse).items ==
      SchemaRun(c, d, i, recurse).items + SchemaStep(c, d, d.schemas[i], recurse).items
    ensures SchemaRun(c, d, i + 1, recurse).error == SchemaStep(c, d, d.schemas[i], recurse).error
  {
  }

  /** One more pass of the table loop, after passes that did not throw,
      appends that pass's items and ends with its exception. */
  lemma TableRunStep(c: Collaborators, d: Driver, path: NString, i: nat, recurse: bool)
    requires Layered(c, d) && c.describe(path).pathType == ObjectType
    requires i < |d.tables(c.describe(path).schemaName)|
    requires TableRun(c, d, path, i, recurse).error.None?
    ensures var ts := d.tables(c.describe(path).schemaName);
      && TableRun(c, d, path, i + 1, recurse).items ==
           TableRun(c, d, path, i, recurse).items + TableStep(c, d, path, ts[i], recurse).items
      && TableRun(c, d, path, i + 1, recurse).error == TableStep(c, d, path, ts[i], recurse).error
  {
  }

  /** The schema loop completes exactly when no pass throws, and once a
      pass throws the later ones do not run. */
  lemma {:induction false} SchemaRunError(c: Collaborators, d: Driver, n: nat, recurse: bool)
    requires Layered(c, d) && n <= |d.schemas|
    ensures SchemaRun(c, d, n, recurse).error.None? <==>
      forall k :: 0 <= k < n ==> SchemaStep(c, d, d.schemas[k], recurse).error.None?
  {
    if n > 0 {
      SchemaRunError(c, d, n - 1, recurse);
    }
  }

  lemma {:induction false} SchemaRunStopsAtError(c: Collaborators, d: Driver, k: nat, n: nat, recurse: bool)
    requires Layered(c, d) && k <= n <= |d.schemas|
    requires SchemaRun(c, d, k, recurse).error.Some?
    ensures SchemaRun(c, d, n, recurse) == SchemaRun(c, d, k, recurse)
  {
    if k < n {
      SchemaRunStopsAtError(c, d, k, n - 1, recurse);
    }
  }

  /** The same two facts for the table loop. */
  lemma {:induction false} TableRunError(c: Collaborators, d: Driver, path: NString, n: nat, recurse: bool)
    requires Layered(c, d) && c.describe(path).pathType == ObjectType
    requires n <= |d.tables(c.describe(path).schemaName)|
    ensures var ts := d.tables(c.describe(path).schemaName);
      TableRun(c, d, path, n, recurse).error.None? <==>
      forall k :: 0 <= k < n ==> TableStep(c, d, path, ts[k], recurse).error.None?
  {
    if n > 0 {
      TableRunError(c, d, path, n - 1, recurse);
    }
  }

  lemma {:induction false} TableRunStopsAtError(c: Collaborators, d: Driver, path: NString, k: nat, n: nat, recurse: bool)
    requires Layered(c, d) && c.describe(path).pathType == ObjectType
    requires k <= n <= |d.tables(c.describe(path).schemaName)|
    requires TableRun(c, d, path, k, recurse).error.Some?
    ensures TableRun(c, d, path, n, recurse) == TableRun(c, d, path, k, recurse)
  {
    if k < n {
      TableRunStopsAtError(c, d, path, k, n - 1, recurse);
    }
  }

  /** Without recursion, the first `n` schemas are each written once, in
      order, and nothing throws. */
  lemma {:induction false} FlatSchemaRun(c: Collaborators, d: Driver, n: nat)
    requires Layered(c, d) && n <= |d.schemas|
    ensures var r := SchemaRun(c, d, n, false);
      && r.error.None? && |r.items| == n
      && forall k :: 0 <= k < n ==>
           r.items[k] == Emitted(SchemaItem(Some(d.schemas[k])), Some(SchemaPath(d, d.schemas[k])), true)
  {
    if n > 0 {
      FlatSchemaRun(c, d, n - 1);
    }
  }

  /** Without recursion, the first `n` tables are each written once, in
      order, and nothing throws. */
  lemma {:induction false} FlatTableRun(c: Collaborators, d: Driver, path: NString, n: nat)
    requires Layered(c, d) && c.describe(path).pathType == ObjectType
    requires n <= |d.tables(c.describe(path).schemaName)|
    ensures var pd := c.describe(path);
      var ts := d.tables(pd.schemaName);
      var r := TableRun(c, d, path, n, false);
      && r.error.None? && |r.items| == n
      && forall k :: 0 <= k < n ==>
           r.items[k] == Emitted(TableItem(Some(ts[k])), Some(TablePath(d, pd, ts[k])), true)
  {
    if n > 0 {
      FlatTableRun(c, d, path, n - 1);
    }
  }

  /** The object types of a schema path, each at its own path, not
      containers. */
  function ObjectTypeEntries(d: Driver, pd: PathDescriptor, types: seq<DataModel.ObjectType>): seq<Emitted> {
    seq(|types|, k requires 0 <= k < |types| => Emitted(ObjectTypeItem(types[k]), Some(ObjectTypePath(d, pd, types[k])), false))
  }

  /** The rows of a table, each at the table's path, not containers. */
  function RowEntries(rows: seq<DataModel.PSObject>, path: NString): seq<Emitted> {
    seq(|rows|, k requires 0 <= k < |rows| => Emitted(RowItem(rows[k]), path, false))
  }

  /** Without `recurse`, the database lists each schema once, at the root
      followed by the schema's name, as a container, and does not throw. */
  lemma FlatDatabaseChildren(c: Collaborators, d: Driver, path: NString)
    requires Layered(c, d) && c.describe(path).pathType == Database
    ensures var r := ChildItems(c, d, path, false);
      && r.error.None? && |r.items| == |d.schemas|
      && forall k :: 0 <= k < |d.schemas| ==>
           r.items[k] == Emitted(SchemaItem(Some(d.schemas[k])), Some(d.rootDrive + OrEmpty(d.schemas[k].SchemaName)), true)
  {
    FlatSchemaRun(c, d, |d.schemas|);
  }

  /** Without `recurse`, an object type lists each table of its schema
      once, at root, schema, type and table name joined by separators, as
      a container, and does not throw. */
  lemma FlatObjectTypeChildren(c: Collaborators, d: Driver, path: NString)
    requires Layered(c, d) && c.describe(path).pathType == ObjectType
    ensures var pd := c.describe(path);
      var ts := d.tables(pd.schemaName);
      var r := ChildItems(c, d, path, false);
      && r.error.None? && |r.items| == |ts|
      && forall k :: 0 <= k < |ts| ==>
           r.items[k] == Emitted(TableItem(Some(ts[k])),
                                 Some(d.rootDrive + OrEmpty(pd.schemaName) + "\\" +
                                      DataModel.ObjectTypeName(pd.databaseObjectType) + "\\" + OrEmpty(ts[k].TableName)),
                                 true)
  {
    FlatTableRun(c, d, path, |d.tables(c.describe(path).schemaName)|);
  }

  /** `GetChildNames(path)` against a drive: the database names its
      schemas, a schema its tables and an object type answers a type code
      per supported type, all written at `path` itself as containers; an
      object writes nothing (after reading its first segment); a row writes
      nothing; any other kind of path is refused. */
  function ChildNames(c: Collaborators, d: Driver, path: NString): Outcome {
    var pd := c.describe(path);
    match pd.pathType
    case Database => Outcome(SchemaNameEntries(d.schemas, path), None)
    case Schema => Outcome(TableNameEntries(d.tables(pd.schemaName), path), None)
    case ObjectType => Outcome(TypeCodeEntries(d.supportedObjectTypes(pd.schemaName), path), None)
    case Object =>
      (match FirstSegment(pd.objectPath)
       case Throw(e) => Outcome([], Some(e))
       case Ok(_) => Outcome([], None))
    case Row => Outcome([], None)
    case _ => Outcome([], Some(InvalidPathError(path)))
  }

  function SchemaNameEntries(schemas: seq<SchemaInfo>, path: NString): seq<Emitted> {
    seq(|schemas|, k requires 0 <= k < |schemas| => Emitted(NameItem(schemas[k].SchemaName), path, true))
  }

  function TableNameEntries(tables: seq<TableInfo>, path: NString): seq<Emitted> {
    seq(|tables|, k requires 0 <= k < |tables| => Emitted(NameItem(tables[k].TableName), path, true))
  }

  function TypeCodeEntries(types: seq<DataModel.ObjectType>, path: NString): seq<Emitted> {
    seq(|types|, k requires 0 <= k < |types| => Emitted(TypeCodeItem(DataModel.INT32_TYPE_CODE), path, true))
  }

  /** The two enumerations compared. On the database they name the same
      schemas in the same order, but names are written at the database
      path. A schema's items are its object types while its names are its
      tables. A row is refused by one and accepted, empty, by the other. */
  lemma ChildNamesVersusChildItems(c: Collaborators, d: Driver, path: NString)
    requires Layered(c, d)
    ensures c.describe(path).pathType == Database ==>
      var items := ChildItems(c, d, path, false).items;
      var names := ChildNames(c, d, path).items;
      |items| == |names| == |d.schemas| &&
      forall k :: 0 <= k < |names| ==>
        items[k].item == SchemaItem(Some(d.schemas[k])) &&
        names[k] == Emitted(NameItem(d.schemas[k].SchemaName), path, true)
    ensures c.describe(path).pathType == Schema ==>
      var pd := c.describe(path);
      |ChildItems(c, d, path, false).items| == |d.supportedObjectTypes(pd.schemaName)| &&
      |ChildNames(c, d, path).items| == |d.tables(pd.schemaName)|
    ensures c.describe(path).pathType == Row ==>
      ChildItems(c, d, path, false) == Outcome([], Some(InvalidPathError(path))) &&
      ChildNames(c, d, path) == Outcome([], None)
  {
    if c.describe(path).pathType == Database {
      FlatDatabaseChildren(c, d, path);
    }
  }

  /** The navigation provider. `Drive` is `PSDriveInfo as
      DatabaseDriveInfo`; `Output` holds what `WriteItemObject` wrote and
      `Errors` what `WriteError` wrote, oldest first. */
  class DatabaseProvider {
    const Tools: Collaborators
    var Drive: Option<Driver>
    var Output: seq<Emitted>
    var Errors: seq<ErrorRecord>

    constructor (tools: Collaborators, drive: Option<Driver>)
      ensures Tools == tools && Drive == drive && Output == [] && Errors == []
    {
      Tools := tools;
      Drive := drive;
      Output := [];
      Errors := [];
    }

    /** `GetItem`: at most one item, always as a container. The database
        is the drive at its root; a schema is what the drive finds for it;
        an object type is itself; a table or view object is what the drive
        finds for its first segment; a row writes nothing; any other kind
        of path is refused. */
    method GetItem(path: NString) returns (error: Option<Exception>)
      modifies this`Output
      ensures Drive.None? ==> Output == old(Output) && error.None?
      ensures old(Output) <= Output && |Output| <= |old(Output)| + 1
      ensures |Output| > |old(Output)| ==> error.None? && Output[|old(Output)|].isContainer
      ensures Drive.Some? ==>
        var d := Drive.value;
        var pd := Tools.describe(path);
        && (pd.pathType == Database ==>
              Output == old(Output) + [Emitted(DriveItem(d.rootDrive), Some(d.rootDrive), true)] && error.None?)
        && (pd.pathType == Schema ==>
              var s := d.getSchema(pd.schemaName);
              (s.Ok? ==> Output == old(Output) + [Emitted(SchemaItem(s.value), path, true)] && error.None?) &&
              (s.Throw? ==> Output == old(Output) && error == Some(s.error)))
        && (pd.pathType == ObjectType ==>
              Output == old(Output) + [Emitted(ObjectTypeItem(pd.databaseObjectType), path, true)] && error.None?)
        && (pd.pathType == Object ==>
              var first := FirstSegment(pd.objectPath);
              (first.Throw? ==> Output == old(Output) && error == Some(first.error)) &&
              (first.Ok? && pd.databaseObjectType == DataModel.TABLE ==>
                 var t := d.getTable(pd.schemaName, first.value);
                 (t.Ok? ==> Output == old(Output) + [Emitted(TableItem(t.value), path, true)] && error.None?) &&
                 (t.Throw? ==> Output == old(Output) && error == Some(t.error))) &&
              (first.Ok? && pd.databaseObjectType == DataModel.VIEW ==>
                 var v := d.getView(pd.schemaName, first.value);
                 (v.Ok? ==> Output == old(Output) + [Emitted(ViewItem(v.value), path, true)] && error.None?) &&
                 (v.Throw? ==> Output == old(Output) && error == Some(v.error))))
        && (pd.pathType == Row ==> Output == old(Output) && error.None?)
        && (pd.pathType in {Root, Invalid} ==> Output == old(Output) && error == Some(InvalidPathError(path)))
    {
      if Drive.None? {
        return None;
      }
      var d := Drive.value;
      var pd := Tools.describe(path);
      match pd.pathType {
        case Database =>
          Output := Output + [Emitted(DriveItem(d.rootDrive), Some(d.rootDrive), true)];
          error := None;
        case Schema =>
          var s := d.getSchema(pd.schemaName);
          if s.Throw? {
            return Some(s.error);
          }
          Output := Output + [Emitted(SchemaItem(s.value), path, true)];
          error := None;
        case ObjectType =>
          Output := Output + [Emitted(ObjectTypeItem(pd.databaseObjectType), path, true)];
          error := None;
        case Object =>
          var first := FirstSegment(pd.objectPath);
          if first.Throw? {
            return Some(first.error);
          }
          match pd.databaseObjectType {
            case TABLE =>
              var t := d.getTable(pd.schemaName, first.value);
              if t.Throw? {
                return Some(t.error);
              }
              Output := Output + [Emitted(TableItem(t.value), path, true)];
            case VIEW =>
              var v := d.getView(pd.schemaName, first.value);
              if v.Throw? {
                return Some(v.error);
              }
              Output := Output + [Emitted(ViewItem(v.value), path, true)];
          }
          error := None;
        case Row =>
          error := None;
        case _ =>
          error := Some(InvalidPathError(path));
      }
    }

    /** `GetChildItems`: writes what `ChildItems` says, recursing into
        schemas and tables when asked to. */
    method GetChildItems(path: NString, recurse: bool) returns (error: Option<Exception>)
      requires Drive.Some? ==> Layered(Tools, Drive.value)
      modifies this`Output
      ensures Drive.None? ==> Output == old(Output) && error.None?
      ensures Drive.Some? ==>
        Output == old(Output) + ChildItems(Tools, Drive.value, path, recurse).items &&
        error == ChildItems(Tools, Drive.value, path, recurse).error
      decreases Rank(Tools.describe(path).pathType), 2
    {
      if Drive.None? {
        return None;
      }
      var d := Drive.value;
      var pd := Tools.describe(path);
      match pd.pathType {
        case Database =>
          error := WriteSchemas(recurse);
        case Schema =>
          WriteObjectTypes(pd, d.supportedObjectTypes(pd.schemaName));
          error := None;
        case ObjectType =>
          error := WriteTables(path, recurse);
        case Object =>
          var first := FirstSegment(pd.objectPath);
          if first.Throw? {
            return Some(first.error);
          }
          WriteRows(d.rows(pd.schemaName, first.value), path);
          error := None;
        case _ =>
          error := Some(InvalidPathError(path));
      }
    }

    /** The schema loop of `GetChildItems`: each schema at its path, then,
        when recursing, its children; the first exception ends the loop. */
    method WriteSchemas(recurse: bool) returns (error: Option<Exception>)
      requires Drive.Some? && Layered(Tools, Drive.value)
      modifies this`Output
      ensures Output == old(Output) + SchemaRun(Tools, Drive.value, |Drive.value.schemas|, recurse).items
      ensures error == SchemaRun(Tools, Drive.value, |Drive.value.schemas|, recurse).error
      decreases 2, 1
    {
      var d := Drive.value;
      var xs := d.schemas;
      var i := 0;
      while i < |xs|
        invariant 0 <= i <= |xs|
        invariant Output == old(Output) + SchemaRun(Tools, d, i, recurse).items
        invariant SchemaRun(Tools, d, i, recurse).error.None?
      {
        ghost var before := Output;
        var e := WriteSchema(xs[i], recurse);
        SchemaRunStep(Tools, d, i, recurse);
        assert Output == old(Output) + SchemaRun(Tools, d, i + 1, recurse).items by {
          assert Output == before + SchemaStep(Tools, d, xs[i], recurse).items;
        }
        if e.Some? {
          SchemaRunStopsAtError(Tools, d, i + 1, |xs|, recurse);
          return e;
        }
        i := i + 1;
      }
      error := None;
    }

    /** The table loop of `GetChildItems` on an object-type path: each
        table at its path, then, when recursing, its rows; the first
        exception ends the loop. */
    method WriteTables(path: NString, recurse: bool) returns (error: Option<Exception>)
      requires Drive.Some? && Layered(Tools, Drive.value)
      requires Tools.describe(path).pathType == ObjectType
      modifies this`Output
      ensures var n := |Drive.value.tables(Tools.describe(path).schemaName)|;
        Output == old(Output) + TableRun(Tools, Drive.value, path, n, recurse).items &&
        error == TableRun(Tools, Drive.value, path, n, recurse).error
      decreases 1, 1
    {
      var d := Drive.value;
      var pd := Tools.describe(path);
      var ts := d.tables(pd.schemaName);
      var i := 0;
      while i < |ts|
        invariant 0 <= i <= |ts|
        invariant Output == old(Output) + TableRun(Tools, d, path, i, recurse).items
        invariant TableRun(Tools, d, path, i, recurse).error.None?
      {
        ghost var before := Output;
        var e := WriteTable(path, ts[i], recurse);
        TableRunStep(Tools, d, path, i, recurse);
        assert Output == old(Output) + TableRun(Tools, d, path, i + 1, recurse).items by {
          assert Output == before + TableStep(Tools, d, path, ts[i], recurse).items;
        }
        if e.Some? {
          TableRunStopsAtError(Tools, d, path, i + 1, |ts|, recurse);
          return e;
        }
        i := i + 1;
      }
      error := None;
    }

    /** One pass of the schema loop. */
    method WriteSchema(s: SchemaInfo, recurse: bool) returns (error: Option<Exception>)
      requires Drive.Some? && Layered(Tools, Drive.value) && s in Drive.value.schemas
      modifies this`Output
      ensures Output == old(Output) + SchemaStep(Tools, Drive.value, s, recurse).items
      ensures error == SchemaStep(Tools, Drive.value, s, recurse).error
      decreases 2, 0
    {
      var outputPath := SchemaPath(Drive.value, s);
      Output := Output + [Emitted(SchemaItem(Some(s)), Some(outputPath), true)];
      error := None;
      if recurse {
        error := GetChildItems(Some(outputPath), recurse);
      }
    }

    /** One pass of the table loop. */
    method WriteTable(path: NString, t: TableInfo, recurse: bool) returns (error: Option<Exception>)
      requires Drive.Some? && Layered(Tools, Drive.value)
      requires ListedTable(Tools, Drive.value, path, t)
      modifies this`Output
      ensures Output == old(Output) + TableStep(Tools, Drive.value, path, t, recurse).items
      ensures error == TableStep(Tools, Drive.value, path, t, recurse).error
      decreases 1, 0
    {
      var outputPath := TablePath(Drive.value, Tools.describe(path), t);
      Output := Output + [Emitted(TableItem(Some(t)), Some(outputPath), true)];
      error := None;
      if recurse {
        error := GetChildItems(Some(outputPath), recurse);
      }
    }

    /** The object-type loop of `GetChildItems` on a schema path. */
    method WriteObjectTypes(pd: PathDescriptor, types: seq<DataModel.ObjectType>)
      requires Drive.Some?
      modifies this`Output
      ensures Output == old(Output) + ObjectTypeEntries(Drive.value, pd, types)
    {
      var d := Drive.value;
      var i := 0;
      while i < |types|
        invariant 0 <= i <= |types|
        invariant Output == old(Output) + ObjectTypeEntries(d, pd, types)[..i]
      {
        var outputPath := d.rootDrive + OrEmpty(pd.schemaName) + PATH_SEPARATOR + DataModel.ObjectTypeName(types[i]);
        Output := Output + [Emitted(ObjectTypeItem(types[i]), Some(outputPath), false)];
        assert ObjectTypeEntries(d, pd, types)[..i + 1] == ObjectTypeEntries(d, pd, types)[..i] + [ObjectTypeEntries(d, pd, types)[i]];
        i := i + 1;
      }
      assert ObjectTypeEntries(d, pd, types)[..i] == ObjectTypeEntries(d, pd, types);
    }

    /** The row loop of `GetChildItems` on an object path. */
    method WriteRows(rows: seq<DataModel.PSObject>, path: NString)
      modifies this`Output
      ensures Output == old(Output) + RowEntries(rows, path)
    {
      var i := 0;
      while i < |rows|
        invariant 0 <= i <= |rows|
        invariant Output == old(Output) + RowEntries(rows, path)[..i]
      {
        Output := Output + [Emitted(RowItem(rows[i]), path, false)];
        assert RowEntries(rows, path)[..i + 1] == RowEntries(rows, path)[..i] + [RowEntries(rows, path)[i]];
        i := i + 1;
      }
      assert RowEntries(rows, path)[..i] == RowEntries(rows, path);
    }

    /** `GetChildNames`: writes what `ChildNames` says. */
    method GetChildNames(path: NString) returns (error: Option<Exception>)
      modifies this`Output
      ensures Drive.None? ==> Output == old(Output) && error.None?
      ensures Drive.Some? ==>
        Output == old(Output) + ChildNames(Tools, Drive.value, path).items &&
        error == ChildNames(Tools, Drive.value, path).error
    {
      if Drive.None? {
        return None;
      }
      var d := Drive.value;
      var pd := Tools.describe(path);
      match pd.pathType {
        case Database =>
          WriteSchemaNames(d.schemas, path);
          error := None;
        case Schema =>
          WriteTableNames(d.tables(pd.schemaName), path);
          error := None;
        case ObjectType =>
          WriteTypeCodes(d.supportedObjectTypes(pd.schemaName), path);
          error := None;
        case Object =>
          var first := FirstSegment(pd.objectPath);
          if first.Throw? {
            return Some(first.error);
          }
          error := None;
        case Row =>
          error := None;
        case _ =>
          error := Some(InvalidPathError(path));
      }
    }

    /** The schema loop of `GetChildNames`: each schema's name at `path`. */
    method WriteSchemaNames(xs: seq<SchemaInfo>, path: NString)
      modifies this`Output
      ensures Output == old(Output) + SchemaNameEntries(xs, path)
    {
      var i := 0;
      while i < |xs|
        invariant 0 <= i <= |xs|
        invariant Output == old(Output) + SchemaNameEntries(xs, path)[..i]
      {
        Output := Output + [Emitted(NameItem(xs[i].SchemaName), path, true)];
        assert SchemaNameEntries(xs, path)[..i + 1] == SchemaNameEntries(xs, path)[..i] + [SchemaNameEntries(xs, path)[i]];
        i := i + 1;
      }
      assert SchemaNameEntries(xs, path)[..i] == SchemaNameEntries(xs, path);
    }

    /** The table loop of `GetChildNames`: each table's name at `path`. */
    method WriteTableNames(ts: seq<TableInfo>, path: NString)
      modifies this`Output
      ensures Output == old(Output) + TableNameEntries(ts, path)
    {
      var i := 0;
      while i < |ts|
        invariant 0 <= i <= |ts|
        invariant Output == old(Output) + TableNameEntries(ts, path)[..i]
      {
        Output := Output + [Emitted(NameItem(ts[i].TableName), path, true)];
        assert TableNameEntries(ts, path)[..i + 1] == TableNameEntries(ts, path)[..i] + [TableNameEntries(ts, path)[i]];
        i := i + 1;
      }
      assert TableNameEntries(ts, path)[..i] == TableNameEntries(ts, path);
    }

    /** The object-type loop of `GetChildNames`: each type's type code at
        `path`. */
    method WriteTypeCodes(types: seq<DataModel.ObjectType>, path: NString)
      modifies this`Output
      ensures Output == old(Output) + TypeCodeEntries(types, path)
    {
      var i := 0;
      while i < |types|
        invariant 0 <= i <= |types|
        invariant Output == old(Output) + TypeCodeEntries(types, path)[..i]
      {
        Output := Output + [Emitted(TypeCodeItem(DataModel.INT32_TYPE_CODE), path, true)];
        assert TypeCodeEntries(types, path)[..i + 1] == TypeCodeEntries(types, path)[..i] + [TypeCodeEntries(types, path)[i]];
        i := i + 1;
      }
      assert TypeCodeEntries(types, path)[..i] == TypeCodeEntries(types, path);
    }

    /** `NewDrive`: a null drive and a drive rooted at the separator are
        refused with an error record and no drive; a null root is
        dereferenced; any other drive is what the factory makes of the
        dynamic parameters. */
    method NewDrive(drive: Option<PSDriveInfo>, parameters: Option<Drives.DatabaseParameters>, backend: Readers.Backend)
      returns (r: Result<Option<Drives.DatabaseDriveInfo>>)
      modifies this`Errors
      ensures drive.None? ==>
        r == Ok(None) && Errors == old(Errors) + [ErrorRecord(ArgumentNullException("drive"), "NullDrive", None)]
      ensures drive.Some? && drive.value.Root.None? ==>
        r == Throw(NullReferenceException) && Errors == old(Errors)
      ensures drive.Some? && drive.value.Root == Some(PATH_SEPARATOR) ==>
        r == Ok(None) &&
        Errors == old(Errors) + [ErrorRecord(ArgumentException("Root cannot be path separator"), "BadRoot", None)]
      ensures drive.Some? && drive.value.Root.Some? && drive.value.Root.value != PATH_SEPARATOR ==>
        && Errors == old(Errors)
        && (r.Ok? <==> parameters.Some? && parameters.value.Provider == Some(Drives.ORACLE_PROVIDER))
        && (r.Throw? && parameters.Some? ==> r.error == Drives.ProviderKind(parameters.value.Provider).error)
        && (r.Ok? ==> r.value.Some? && fresh(r.value.value) &&
                      r.value.value.Kind == Drives.Oracle &&
                      r.value.value.MaxReadResult == Drives.DEFAULT_MAX_READ_RESULT)
    {
      if drive.None? {
        Errors := Errors + [ErrorRecord(ArgumentNullException("drive"), "NullDrive", None)];
        return Ok(None);
      }
      var isSeparator := InstanceEquals(drive.value.Root, Some(PATH_SEPARATOR));
      if isSeparator.Throw? {
        return Throw(isSeparator.error);
      }
      if isSeparator.value {
        Errors := Errors + [ErrorRecord(ArgumentException("Root cannot be path separator"), "BadRoot", None)];
        return Ok(None);
      }
      var info := Drives.NewInstance(parameters, backend);
      if info.Throw? {
        return Throw(info.error);
      }
      return Ok(Some(info.value));
    }

    /** `TableNameIsValid`: the name check, writing an error record on
        the provider when it fails. */
    method TableNameIsValid(tableName: string) returns (valid: bool)
      modifies this`Errors
      ensures valid == DatabaseUtils.NameIsValid(tableName)
      ensures valid ==> Errors == old(Errors)
      ensures !valid ==>
        Errors == old(Errors) + [ErrorRecord(ArgumentException("Table name not valid"), "TableNameNotValid", Some(tableName))]
    {
      if !DatabaseUtils.NameIsValid(tableName) {
        Errors := Errors + [ErrorRecord(ArgumentException("Table name not valid"), "TableNameNotValid", Some(tableName))];
        return false;
      }
      return true;
    }

    /** `SchemaNameIsValid`: the name check, writing an error record with
        its own identifier when it fails. */
    method SchemaNameIsValid(schemaName: string) returns (valid: bool)
      modifies this`Errors
      ensures valid == DatabaseUtils.NameIsValid(schemaName)
      ensures valid ==> Errors == old(Errors)
      ensures !valid ==>
        Errors == old(Errors) + [ErrorRecord(ArgumentException("Schema name not valid"), "SchemaNameNotValid", Some(schemaName))]
    {
      if !DatabaseUtils.NameIsValid(schemaName) {
        Errors := Errors + [ErrorRecord(ArgumentException("Schema name not valid"), "SchemaNameNotValid", Some(schemaName))];
        return false;
      }
      return true;
    }
  }
}
