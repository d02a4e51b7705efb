# PowerShellDBDrive in Dafny

PowerShellDBDrive mounts a relational database as a PowerShell drive.
Schemas, object types (`TABLE`, `VIEW`), tables and rows become items that
`Get-Item`, `Get-ChildItem` and `Test-Path` can reach through paths such as
`db:\SCOTT\TABLE\EMP`. An `Invoke-Query` cmdlet sends an arbitrary query
with named parameters and writes its records down the pipeline.

This project models the core of that system and proves properties of the
model. It has these parts:

- **Path algebra and navigation dispatch** of the navigation provider
  (`NavigationProvider`): `MakePath`, `GetParentPath`,
  `NormalizeRelativePath`, the node-kind tables, `ItemExists`, `NewDrive`,
  and the `GetItem`, `GetChildItems` and `GetChildNames` enumerations.
  The provider is a class whose `Output` and `Errors` sequences receive
  what it writes to the host.
- **The older path classifier** (`LegacyProvider`): `NormalizePath`,
  `IsValidPath`, `PathIsDrive`, `StripDriveFromPath`, `ChunkPath`,
  `GetNamesFromPath`, and the SQL text that `GetAdapterForTable` builds.
- **The name validator** (`DatabaseUtils`): the injection guard
  `^[a-zA-Z0-9_]+$`, matched case-insensitively.
- **The drivers** (`Drives`, `OracleDrive`, `PgDrive`, `Readers`). A query
  is an opaque `Backend`: a function from a command (a query name plus its
  bound parameters) to the rows the data reader yields. The drivers' loops
  over the reader are methods proved against specification functions.
- **The record decoders and data transfer objects** (`OracleDatabaseFactory`,
  `DataModel`). Records whose properties the code assigns after
  construction are classes. Their derived getters are functions.
- **The `Invoke-Query` cmdlet** (`InvokeQuery`): the parameter conversion
  and the result-count loop.

`Common` holds the shared vocabulary: nullable strings, the .NET
exceptions the code can raise, a `Result` type for throwing paths, and the
runtime values a reader can hand out. `NetStrings` models the .NET string
operations the code relies on: ordinal and ignore-case `StartsWith`,
`EndsWith`, `IndexOf` and `Contains`, and also `Replace`, `Split` and
`Join`. Two calls in the source use the culture-sensitive `EndsWith` and
`StartsWith` overloads. The model tests those ordinally (see "Left out"). Their lemmas (`JoinSplit`, `SplitJoin`, `ReplaceToEmptyIff`, ...)
support the proofs about paths.

### Quirks of the source the model keeps

- `NameIsValid` (src/DatabaseUtils.cs:45, :58-64) accepts a name followed
  by one final line feed, such as `"ABC\n"`. The .NET `$` also matches
  before a final `\n` (`DatabaseUtils.NameIsValidIff`,
  `DatabaseUtils.AcceptsTrailingLineFeed`).
- `NormalizeRelativePath` (src/DatabaseProvider.cs:560-564) tests the base
  with `Contains`, not as a prefix. It then cuts the base's length plus one
  character off the front. `Substring(Length)` is legal and gives `""`, so
  the only length that throws is a path exactly as long as the base.
- `BuildInsertCommand` (src/Providers/DatabaseProvider.cs:455-462) trims
  the last two characters before adding `)`. For a table with no columns
  this removes the `( ` of `" values ( "` and leaves
  `"Insert into T values )"`.
- The legacy `SchemaNameIsValid` reports its failure under the error id
  `"TableNameNotValid"` (src/Providers/DatabaseProvider.cs:306). The
  navigation provider's version uses `"SchemaNameNotValid"`.
- The PostgreSQL `GetTable` (src/Drives/PgDatabaseDriveInfo.cs:237) compares
  the requested name with itself. It returns the schema's first table
  whatever name is asked for. A null name throws `NullReferenceException`
  when the schema has tables.
- The PostgreSQL `GetSchema` (src/Drives/PgDatabaseDriveInfo.cs:164)
  compares the argument with the `SchemaName` of each schema `GetSchemas`
  yields. `GetSchemas` builds each record with `new PgDatabaseSchemaInfo()`
  (src/Drives/PgDatabaseDriveInfo.cs:108). That class declares only a
  three-argument constructor
  (src/DataModel/PostgreSQL/PgDatabaseSchemaInfo.cs:16-20). The model takes
  the call to give a record whose three properties are null (see "Left
  out"). On that reading the lookup finds a schema only for a null name.
- The Oracle `GetTablesNames(schemaName, tableName)` binds its `regexp`
  parameter to `schemaName` and never reads `tableName`
  (src/Drives/OracleDatabaseDriveInfo.cs:426-430).
- `Invoke-Query` starts its counter at 1 and stops when it equals
  `MaxResult` (src/Cmdlet/InvokeQueryCmdlet.cs:47-54). So `MaxResult <= 0`
  means "no limit", while the drivers' `GetRows` treats it as "no rows"
  (`InvokeQuery.CapsAgreeOnlyWhenPositive`).
- `DatabaseDriveInfoFactory.NewInstance` accepts only the Oracle managed
  provider (src/Drives/DatabaseDriveInfo.cs:66-71). A PostgreSQL drive can
  never be created through it (`Drives.PostgreSqlIsNeverChosen`).

## Model

| member | source | states |
|---|---|---|
| DatabaseUtils.NameRunLength | src/DatabaseUtils.cs:45 | the longest prefix of name characters (ASCII letters, digits, `_`): every character before the returned length is one, and the next one is not |
| DatabaseUtils.NameIsValidIff | src/DatabaseUtils.cs:45-64 | a name passes exactly when it is a non-empty run of name characters, or such a run followed by one final line feed |
| DatabaseUtils.AcceptsIdentifiers | src/DatabaseUtils.cs:45-64 | every non-empty string of letters, digits and `_` passes |
| DatabaseUtils.RejectsEmpty | src/DatabaseUtils.cs:45 | the empty name fails (`+` needs one character) |
| DatabaseUtils.RejectsInjectionCharacters | src/DatabaseUtils.cs:45-50 | a name containing `;`, `'`, `-`, a space or the path separator `\` anywhere fails |
| DatabaseUtils.AcceptsTrailingLineFeed | src/DatabaseUtils.cs:45-60 | `"ABC\n"` passes, while `"ABC\n\n"` and `"\n"` fail |
| DatabaseUtils.SwapCaseKeepsRun | src/DatabaseUtils.cs:45-59 | swapping the case of every letter keeps the run of name characters the same length |
| DatabaseUtils.CaseDoesNotMatter | src/DatabaseUtils.cs:59 | a name passes exactly when its case-swapped form does |
| LegacyProvider.NormalizePath | src/Providers/DatabaseProvider.cs:186-194 | null and empty paths come back unchanged; any other path has each `/` turned into `\` and every other character kept |
| LegacyProvider.NormalizePathIdempotent | src/Providers/DatabaseProvider.cs:186-194 | normalising keeps the length, leaves no `/`, and normalising twice equals normalising once |
| LegacyProvider.PathIsDriveIff | src/Providers/DatabaseProvider.cs:96-106 | a path names the drive exactly when it is a repetition of the root, or of the root followed by `\` |
| LegacyProvider.DrivePaths | src/Providers/DatabaseProvider.cs:96-106 | the root, the root plus `\`, the empty path and the root written twice all name the drive |
| LegacyProvider.StripDriveFromPath | src/Providers/DatabaseProvider.cs:201-217 | a null or empty path gives `""`; a path that does not contain the root comes back unchanged; any other gives a suffix of the path |
| LegacyProvider.StripDriveAfterFirstMatch | src/Providers/DatabaseProvider.cs:213-215 | when the root occurs ordinally, the result is the part after the first case-insensitive occurrence of the root |
| LegacyProvider.StripDriveIgnoresCaseOfFirstMatch | src/Providers/DatabaseProvider.cs:213-215 | `xABab` with root `ab` gives `ab`: the case-insensitive match at 1 wins over the ordinal one at 3 |
| LegacyProvider.StripDriveFromPrefixedPath | src/Providers/DatabaseProvider.cs:201-217 | a path that starts with the root loses exactly that root |
| LegacyProvider.StripDriveWithoutDrive | src/Providers/DatabaseProvider.cs:201-217 | without a drive the path comes back whole |
| LegacyProvider.StripDriveAbsentRoot | src/Providers/DatabaseProvider.cs:201-217 | a path that does not contain the root comes back whole |
| LegacyProvider.ChunkPath | src/Providers/DatabaseProvider.cs:114-121 | chunking yields at least one chunk, and no chunk contains the separator |
| LegacyProvider.ChunkPathRecoversSegments | src/Providers/DatabaseProvider.cs:114-121 | the root, `\` and separator-joined segments chunk back into exactly those segments |
| LegacyProvider.ValidPathPieces | src/Providers/DatabaseProvider.cs:166-179 | splitting the normalised path yields no empty piece exactly when every separator of either kind sits strictly between two other characters |
| LegacyProvider.IsValidPath | src/Providers/DatabaseProvider.cs:166-179 | a path is valid exactly when it is not null or empty and has no leading, trailing or doubled separator |
| LegacyProvider.TableNameIsValid | src/Providers/DatabaseProvider.cs:282-293 | the answer is the name check; a failure writes exactly one "TableNameNotValid" record and a success writes none |
| LegacyProvider.SchemaNameIsValid | src/Providers/DatabaseProvider.cs:302-312 | the answer is the name check; a failure writes exactly one record, under the table's error id |
| LegacyProvider.GetNamesFromPath | src/Providers/DatabaseProvider.cs:229-274 | the drive path is `Database` with no names; more than three chunks is `Invalid` with one error; otherwise it is `Schema` exactly when the schema chunk and any table chunk are valid names, and the table and key are the chunks the code assigns |
| LegacyProvider.RepeatIsPlaceholders | src/Providers/DatabaseProvider.cs:455-462 | appending `"?, "` n times equals n comma-separated placeholders plus a trailing `", "` |
| LegacyProvider.BuildInsertCommand | src/Providers/DatabaseProvider.cs:455-462 | the loop builds the insert text for the column count: `"Insert into T values ( ?, ..., ?)"`, and `"Insert into T values )"` for no columns |
| LegacyProvider.PlaceholderCount | src/Providers/DatabaseProvider.cs:455-462 | n placeholders hold exactly n `?` |
| LegacyProvider.InsertCommandPlaceholders | src/Providers/DatabaseProvider.cs:417-462 | for a table name that passes the check, the insert text has exactly one `?` per column |
| LegacyProvider.NameHasNoQuestionMark | src/DatabaseUtils.cs:45 | a valid name contains no `?`, so it adds no placeholder |
| LegacyProvider.GetAdapterForTable | src/Providers/DatabaseProvider.cs:412-483 | an adapter exists exactly when there is a drive, the name is valid and the table is present; its select, delete and insert texts and parameter sources are built from that name and the column captions; an invalid name writes one error record |
| DataModel.AllObjectTypesListed | src/Drives/OracleDatabaseDriveInfo.cs:309-315 | the enumeration's values are listed once each: `TABLE` and `VIEW` |
| DataModel.LookupFindsFirst | src/DataModel/Oracle/OracleDatabaseFactory.cs:14 | `reader[name]` is the value of the first column of that name, and `DBNull` when the row has none |
| DataModel.OracleDatabaseColumnInfo.constructor | src/DataModel/Oracle/OracleDatabaseColumnInfo.cs:43-46 | a fresh column has every property null, is not nillable and has no schema |
| DataModel.OracleDatabaseColumnInfo.SchemaName | src/DataModel/Oracle/OracleDatabaseColumnInfo.cs:50-56 | the schema is the owner |
| DataModel.OracleDatabaseColumnInfo.Nillable | src/DataModel/Oracle/OracleDatabaseColumnInfo.cs:58-64 | nillable exactly when `Nullable` is ordinal-equal to `"N"` |
| DataModel.NillableOnlyForUpperN | src/DataModel/Oracle/OracleDatabaseColumnInfo.cs:62 | a null flag, `"Y"` and a lower-case `"n"` are all not nillable |
| DataModel.PgDatabaseColumnInfo.constructor | src/DataModel/PostgreSQL/PgDatabaseColumnInfo.cs:5-17 | a fresh column has references null, numbers 0, flags false, `Nillable` false and `SchemaName` null |
| DataModel.PgDatabaseColumnInfo.GetNillable | src/DataModel/PostgreSQL/PgDatabaseColumnInfo.cs:7 | reading `Nillable` reads `IsNullable` |
| DataModel.PgDatabaseColumnInfo.SetNillable | src/DataModel/PostgreSQL/PgDatabaseColumnInfo.cs:7 | setting `Nillable` writes `IsNullable` and no other field, and the getter then answers the new value |
| DataModel.PgDatabaseColumnInfo.GetSchemaName | src/DataModel/PostgreSQL/PgDatabaseColumnInfo.cs:9 | reading `SchemaName` reads `TableSchema` |
| DataModel.PgDatabaseColumnInfo.SetSchemaName | src/DataModel/PostgreSQL/PgDatabaseColumnInfo.cs:9 | setting `SchemaName` writes `TableSchema` and no other field, and the getter then answers the new value |
| DataModel.DatabaseTableInfo.constructor | src/DataModel/DatabaseTableInfo.cs:86-88 | a fresh table has every property null, no schema and a row count of 0 |
| DataModel.DatabaseTableInfo.SchemaName | src/DataModel/DatabaseTableInfo.cs:92-96 | the schema is the owner, and it depends on no other property |
| DataModel.DatabaseTableInfo.RowCount | src/DataModel/DatabaseTableInfo.cs:98-102 | the row count is `NumRows` when present and 0 when null, and it depends on no other property |
| OracleDatabaseFactory.BuildDatabaseViewInfo | src/DataModel/Oracle/OracleDatabaseFactory.cs:11-26 | owner, view name and text length are present exactly when their columns hold a value of the declared type, and are then that column's value |
| OracleDatabaseFactory.ViewDecoding | src/DataModel/Oracle/OracleDatabaseFactory.cs:14-16 | the view's schema is `s` exactly when `OWNER` is the string `s`, its name `n` exactly when `VIEW_NAME` is `n`, and its text length `l` exactly when `TEXT_LENGTH` is the long `l`; a `DBNull` or `decimal` text length decodes to null |
| OracleDatabaseFactory.BuildDatabaseColumnInfo | src/DataModel/Oracle/OracleDatabaseFactory.cs:28-63 | a fresh column whose every property is the `as` conversion of its own column of the current row |
| OracleDatabaseFactory.ColumnDecoding | src/DataModel/Oracle/OracleDatabaseFactory.cs:31-40 | a decoded column is nillable exactly when `NULLABLE` holds `"N"`; its schema is the `OWNER` string; a non-`long` length decodes to null |
| OracleDatabaseFactory.BuildDatabaseTableInfo | src/DataModel/Oracle/OracleDatabaseFactory.cs:65-124 | a fresh table whose every property is the `as` conversion of its own column of the current row; no column list yet |
| OracleDatabaseFactory.TableDecoding | src/DataModel/Oracle/OracleDatabaseFactory.cs:68-87 | a decoded table's schema is the `OWNER` string; its row count is `NUM_ROWS` when that is a `long`, and 0 otherwise |
| Readers.CappedRows | src/Drives/OracleDatabaseDriveInfo.cs:524-540 | the rows yielded are the first min(maxResult, n) reader rows, in reader order, none for `maxResult <= 0`, each copied column by column |
| Readers.CappedRowsPrefix | src/Drives/OracleDatabaseDriveInfo.cs:524-540 | a smaller cap yields a prefix of what a larger cap yields |
| Readers.ReadRows | src/Drives/OracleDatabaseDriveInfo.cs:524-540 | the decrementing reader loop with its `yield break` yields exactly the capped rows |
| Readers.ReadStrings | src/Drives/OracleDatabaseDriveInfo.cs:235-254 | one name per reader row, in order: the column's string, or null for any other value |
| Readers.GetInt64 | src/Drives/OracleDatabaseDriveInfo.cs:228 | the typed getter succeeds exactly for a value convertible to a 64-bit integer, and otherwise throws `InvalidCastException` |
| Readers.GetString | src/Drives/OracleDatabaseDriveInfo.cs:228 | the typed getter succeeds exactly for a string, agreeing with `as string`, and otherwise throws `InvalidCastException` |
| Readers.GetDateTime | src/Drives/OracleDatabaseDriveInfo.cs:228 | the typed getter succeeds exactly for a date, agreeing with `as DateTime?`, and otherwise throws `InvalidCastException` |
| Readers.TypedGetterVersusAs | src/Drives/OracleDatabaseDriveInfo.cs:228 | a typed getter and `as` agree on a `long`; a whole `decimal` converts by getter but is null by `as`; `DBNull` throws with a getter and is null by `as` |
| OracleDrive.SchemaFromRow | src/Drives/OracleDatabaseDriveInfo.cs:228 | a row becomes a schema exactly when its three columns convert, and the name is then the `USERNAME` string |
| OracleDrive.GetSchemas | src/Drives/OracleDatabaseDriveInfo.cs:214-233 | one schema per row, in reader order, until the first row that does not convert; that row's exception ends the enumeration |
| OracleDrive.GetSchemasNames | src/Drives/OracleDatabaseDriveInfo.cs:235-254 | the `USERNAME` column of every row, in order |
| OracleDrive.GetSchemasNamesRegexp | src/Drives/OracleDatabaseDriveInfo.cs:256-280 | the `USERNAME` column of every row of the query with `regexp` bound to the argument |
| OracleDrive.GetSchema | src/Drives/OracleDatabaseDriveInfo.cs:282-307 | null when there are no rows; otherwise the schema decoded from the first row when it decodes, and `InvalidCastException` when it does not |
| OracleDrive.GetSchemaReadsFirstRowOnly | src/Drives/OracleDatabaseDriveInfo.cs:299-305 | two backends that agree on whether there is a row, and on the first one, give the same answer |
| OracleDrive.GetSupportedObjectTypes | src/Drives/OracleDatabaseDriveInfo.cs:309-315 | every object type once, whatever the schema |
| OracleDrive.GetViews | src/Drives/OracleDatabaseDriveInfo.cs:317-342 | one decoded view per row, in reader order |
| OracleDrive.GetViewsNames | src/Drives/OracleDatabaseDriveInfo.cs:344-347 | always throws `NotImplementedException` |
| OracleDrive.GetViewsNamesLike | src/Drives/OracleDatabaseDriveInfo.cs:349-352 | always throws `NotImplementedException` |
| OracleDrive.GetView | src/Drives/OracleDatabaseDriveInfo.cs:354-357 | always throws `NotImplementedException` |
| OracleDrive.GetDatabaseColumnsInfo | src/Drives/OracleDatabaseDriveInfo.cs:442-473 | one fresh column per row of the column query for that schema and table, each decoded from its row |
| OracleDrive.BuildTableWithColumns | src/Drives/OracleDatabaseDriveInfo.cs:378-379 | a fresh table decoded from the row, with the columns queried for the same schema and the table name read back from the row |
| OracleDrive.GetTables | src/Drives/OracleDatabaseDriveInfo.cs:359-385 | one fresh table per row, in reader order, each decoded with its columns attached |
| OracleDrive.GetTablesNames | src/Drives/OracleDatabaseDriveInfo.cs:387-410 | the `TABLE_NAME` column of every row of the schema's query |
| OracleDrive.GetTablesNamesLike | src/Drives/OracleDatabaseDriveInfo.cs:412-440 | the `TABLE_NAME` column of every row of the query whose `regexp` is bound to the schema name; the table name is not used |
| OracleDrive.GetTable | src/Drives/OracleDatabaseDriveInfo.cs:475-510 | a table exactly when the single-table query has a row; it is then decoded from the first row with its columns attached |
| OracleDrive.GetRows | src/Drives/OracleDatabaseDriveInfo.cs:512-544 | the capped rows of the table's select |
| OracleDrive.IsSchemaExist | src/Drives/OracleDatabaseDriveInfo.cs:546-571 | true exactly when the existence query yields a row |
| OracleDrive.IsObjectExist | src/Drives/OracleDatabaseDriveInfo.cs:573-579 | false for any type but `TABLE`; for a table, null and empty object paths throw, and otherwise the answer is whether the first segment names a table |
| OracleDrive.IsObjectExistReadsFirstSegment | src/Drives/OracleDatabaseDriveInfo.cs:573-579 | object paths with the same first segment give the same answer |
| PgDrive.FirstWhere | src/Drives/PgDatabaseDriveInfo.cs:162-165 | `FirstOrDefault` over a filter: the first item the test accepts, with every earlier one rejected; null exactly when every test rejects; otherwise the first exception a test raises |
| PgDrive.FirstWhereConstant | src/Drives/PgDatabaseDriveInfo.cs:234-238 | a test with the same answer for every item picks the first item, none, or that answer's exception |
| PgDrive.GetSchemas | src/Drives/PgDatabaseDriveInfo.cs:94-113 | one schema record per row, with no column read; each is the all-null record `new PgDatabaseSchemaInfo()` is taken to build |
| PgDrive.GetSchemasNames | src/Drives/PgDatabaseDriveInfo.cs:115-134 | the `USERNAME` column of every row |
| PgDrive.GetSchemasNamesRegexp | src/Drives/PgDatabaseDriveInfo.cs:136-160 | the `USERNAME` column of every row of the query with `regexp` bound to `"^"` followed by the argument |
| PgDrive.GetSchema | src/Drives/PgDatabaseDriveInfo.cs:162-165 | a schema exactly when the name is null and there is at least one row; it is then the all-null record |
| PgDrive.BuildDatabaseTableInfo | src/Drives/PgDatabaseDriveInfo.cs:277-336 | a table record with every field at its default |
| PgDrive.BuildDatabaseColumnInfo | src/Drives/PgDatabaseDriveInfo.cs:338-373 | a fresh column with every field at its default, so not nillable and with no schema |
| PgDrive.GetDatabaseColumnsInfo | src/Drives/PgDatabaseDriveInfo.cs:195-224 | one fresh default column per row of the column query |
| PgDrive.GetTables | src/Drives/PgDatabaseDriveInfo.cs:167-193 | one default table per row, each with a column list of default columns queried with a null table name |
| PgDrive.GetTablesNames | src/Drives/PgDatabaseDriveInfo.cs:226-228 | always null |
| PgDrive.GetTablesNamesLike | src/Drives/PgDatabaseDriveInfo.cs:230-232 | always null |
| PgDrive.GetTable | src/Drives/PgDatabaseDriveInfo.cs:234-238 | null for a schema without tables; otherwise the first table whatever the name, or `NullReferenceException` for a null name; the table found is the default record with the default columns of the column query attached |
| PgDrive.GetRows | src/Drives/PgDatabaseDriveInfo.cs:240-268 | the capped rows of the table's select, the same cap as the Oracle driver |
| Drives.ProviderKind | src/Drives/DatabaseDriveInfo.cs:66-71 | only the Oracle managed provider is accepted; any other provider, null included, throws an `ArgumentException` whose message begins with the provider |
| Drives.PostgreSqlIsNeverChosen | src/Drives/DatabaseDriveInfo.cs:66-71 | no provider string yields a PostgreSQL drive, and `"Npgsql"` is refused |
| Drives.DatabaseDriveInfo.constructor | src/Drives/DatabaseDriveInfo.cs:97-106 | a new drive has the limits 100, 50 and 60 |
| Drives.DatabaseDriveInfo.GetRows | src/Drives/DatabaseDriveInfo.cs:154 | the rows the drive yields for a table under a given cap are the capped rows of its select |
| Drives.DatabaseDriveInfo.GetRowsDefault | src/Drives/DatabaseDriveInfo.cs:123-127 | the two-argument form yields exactly the rows of the three-argument form under `MaxReadResult` |
| Drives.DatabaseDriveInfo.GetRow | src/Drives/DatabaseDriveInfo.cs:137-141 | always null |
| Drives.NewInstance | src/Drives/DatabaseDriveInfo.cs:66-71 | null parameters throw `NullReferenceException`; a drive is made exactly for the Oracle provider, fresh and with the default limits; any other provider throws the factory's exception |
| NavigationProvider.IsValidPath | src/DatabaseProvider.cs:147-156 | false for null or empty paths, and otherwise the validator's answer |
| NavigationProvider.NodeKinds | src/DatabaseProvider.cs:390-428 | only a row is not a container; child items exist for every kind but `Row` and invalid; anything with children is a container |
| NavigationProvider.ItemExists | src/DatabaseProvider.cs:163-208 | false without a drive and for roots, rows and invalid paths; true for databases and object types; the drive's answer for schemas and objects |
| NavigationProvider.ExistingItemsHaveChildren | src/DatabaseProvider.cs:163-428 | an item that exists has children and is a container |
| NavigationProvider.DropTrailingSeparator | src/DatabaseProvider.cs:589-592 | removes one trailing `\` exactly when there is one |
| NavigationProvider.DropLeadingSeparator | src/DatabaseProvider.cs:594-597 | removes one leading `\` exactly when there is one |
| NavigationProvider.MakePath | src/DatabaseProvider.cs:582-623 | after trimming one separator from each side, an empty parent gives the child, an empty child gives parent and `\`, and otherwise the two joined by one `\`; a null normalised part throws |
| NavigationProvider.MakePathJoins | src/DatabaseProvider.cs:582-623 | two separator-free non-empty parts join into parent, `\`, child |
| NavigationProvider.MakePathAssociative | src/DatabaseProvider.cs:582-623 | for segments a, b, c, joining (a, b) then c equals joining a then (b, c), which equals `a\b\c` |
| NavigationProvider.GetParentPath | src/DatabaseProvider.cs:487-522 | the drive root's parent is `""`; with a `root` the stripped path does not contain, that root; with no `\` left, the drive root; otherwise the prefix before the last `\`; an empty drive root throws |
| NavigationProvider.ParentOfMadePath | src/DatabaseProvider.cs:487-623 | the parent of a joined `parent\child` path is the parent it was made from |
| NavigationProvider.NormalizeRelativePath | src/DatabaseProvider.cs:542-566 | an empty base gives the stripped path; a base the path does not contain gives null; otherwise the suffix after the base's length plus one, which throws only when path and base have the same length |
| NavigationProvider.RelativeToPrefix | src/DatabaseProvider.cs:549-565 | a path that starts with the base and `\` is made relative to the rest |
| NavigationProvider.RelativeToInnerBase | src/DatabaseProvider.cs:549-565 | the base is found anywhere, not only as a prefix: `a\b\c` relative to `b` is `b\c` |
| NavigationProvider.FirstSegment | src/DatabaseProvider.cs:315 | `objectPath[0]`: a null path throws `NullReferenceException`, an empty one `IndexOutOfRangeException` |
| NavigationProvider.SchemaRunError | src/DatabaseProvider.cs:276-289 | the schema loop ends without an exception exactly when no schema's pass throws |
| NavigationProvider.SchemaRunStep | src/DatabaseProvider.cs:276-289 | while no pass has thrown, one more schema appends that schema's pass and takes on its exception |
| NavigationProvider.TableRunStep | src/DatabaseProvider.cs:299-312 | while no pass has thrown, one more table appends that table's pass and takes on its exception |
| NavigationProvider.SchemaRunStopsAtError | src/DatabaseProvider.cs:276-289 | once a pass throws, later schemas write nothing more |
| NavigationProvider.TableRunError | src/DatabaseProvider.cs:299-312 | the table loop ends without an exception exactly when no table's pass throws |
| NavigationProvider.TableRunStopsAtError | src/DatabaseProvider.cs:299-312 | once a pass throws, later tables write nothing more |
| NavigationProvider.FlatSchemaRun | src/DatabaseProvider.cs:278-282 | without recursion, each schema is written once, in order, as a container at its path |
| NavigationProvider.FlatTableRun | src/DatabaseProvider.cs:301-305 | without recursion, each table is written once, in order, as a container at its path |
| NavigationProvider.FlatDatabaseChildren | src/DatabaseProvider.cs:276-289 | a database lists each schema at the root followed by the schema's name, and does not throw |
| NavigationProvider.FlatObjectTypeChildren | src/DatabaseProvider.cs:299-312 | an object type lists each table at root, schema, type and table joined by `\`, and does not throw |
| NavigationProvider.ChildNamesVersusChildItems | src/DatabaseProvider.cs:264-381 | on a database both name the same schemas in the same order; a schema's items are its object types but its names are its tables; a row is refused by one and empty in the other |
| NavigationProvider.DatabaseProvider.GetItem | src/DatabaseProvider.cs:84-140 | at most one item, always a container: the drive, the schema, the object type, the table or the view the drive answers; a row writes nothing; a root or invalid path throws the invalid-path exception |
| NavigationProvider.DatabaseProvider.GetChildItems | src/DatabaseProvider.cs:264-325 | writes exactly what the recursive child-item specification says and ends with its exception |
| NavigationProvider.DatabaseProvider.WriteSchemas | src/DatabaseProvider.cs:276-289 | the schema loop writes the run of every schema pass and stops at the first exception |
| NavigationProvider.DatabaseProvider.WriteTables | src/DatabaseProvider.cs:299-312 | the table loop writes the run of every table pass and stops at the first exception |
| NavigationProvider.DatabaseProvider.WriteSchema | src/DatabaseProvider.cs:278-286 | one schema, then its children when recursing |
| NavigationProvider.DatabaseProvider.WriteTable | src/DatabaseProvider.cs:301-309 | one table, then its rows when recursing |
| NavigationProvider.DatabaseProvider.WriteObjectTypes | src/DatabaseProvider.cs:290-298 | each object type at its path, not as a container |
| NavigationProvider.DatabaseProvider.WriteRows | src/DatabaseProvider.cs:313-320 | each row at the table's path, not as a container |
| NavigationProvider.DatabaseProvider.GetChildNames | src/DatabaseProvider.cs:332-381 | the schema names, the table names or one type code per type, all at the path as containers; nothing for objects and rows; invalid paths throw |
| NavigationProvider.DatabaseProvider.WriteSchemaNames | src/DatabaseProvider.cs:347-350 | appends each schema's name at the path as a container, in order, and nothing else |
| NavigationProvider.DatabaseProvider.WriteTableNames | src/DatabaseProvider.cs:355-358 | appends each table's name at the path as a container, in order, and nothing else |
| NavigationProvider.DatabaseProvider.WriteTypeCodes | src/DatabaseProvider.cs:363-366 | appends one `Int32` type code per object type at the path as a container, and nothing else |
| NavigationProvider.DatabaseProvider.NewDrive | src/DatabaseProvider.cs:24-46 | a null drive and a root equal to `\` write one error record and give no drive; otherwise the factory's answer |
| NavigationProvider.DatabaseProvider.TableNameIsValid | src/DatabaseProvider.cs:216-228 | the name check; a failure appends one "TableNameNotValid" record |
| NavigationProvider.DatabaseProvider.SchemaNameIsValid | src/DatabaseProvider.cs:237-249 | the name check; a failure appends one "SchemaNameNotValid" record |
| InvokeQuery.NamedParameters | src/Cmdlet/InvokeQueryCmdlet.cs:48 | a null hashtable throws `ArgumentNullException("source")`; a non-string key throws `InvalidCastException`; otherwise every entry is kept under its key's text, value unchanged, and nothing else is added |
| InvokeQuery.NamedParametersRoundTrip | src/Cmdlet/InvokeQueryCmdlet.cs:48 | for string keys, the dictionary converts back into the same hashtable |
| InvokeQuery.WrittenCount | src/Cmdlet/InvokeQueryCmdlet.cs:47-55 | a positive cap writes min(cap, n) records and any other cap writes all of them, always a prefix in query order |
| InvokeQuery.WrittenMonotone | src/Cmdlet/InvokeQueryCmdlet.cs:47-55 | a smaller positive cap writes a prefix of what a larger one writes |
| InvokeQuery.CapsAgreeOnlyWhenPositive | src/Cmdlet/InvokeQueryCmdlet.cs:47-55 | the cmdlet and the drivers write the same records under a positive cap; under any other cap the cmdlet writes all and the drivers none |
| InvokeQuery.InvokeQueryCmdlet.constructor | src/Cmdlet/InvokeQueryCmdlet.cs:22-32 | the parameter defaults: an empty hashtable, a cap of 0 and a 60-second timeout |
| InvokeQuery.InvokeQueryCmdlet.ProcessRecord | src/Cmdlet/InvokeQueryCmdlet.cs:45-57 | a failed conversion writes nothing and throws; otherwise the counter loop appends exactly the capped records, in query order |
| InvokeQuery.InvokeQueryCmdlet.EndProcessing | src/Cmdlet/InvokeQueryCmdlet.cs:59-63 | a connection, when there is one, ends disposed |

## Left out

- SQL text and catalogue semantics. Each query is named by a constant, and
  what it yields is the `Backend` function's answer.
- The connection, command and reader lifecycle is not modelled. This covers
  `DbProviderFactories`, connection strings, command timeouts,
  `GetConnection`, `BeginProcessing` and `using` disposal. Enumerations are
  finite sequences, so lazy iterator disposal is not modelled either.
- OleDb calls in the older provider: `di.Connection`, `FillSchema`,
  `TableIsPresent` and the `try`/`catch` of `GetAdapterForTable`. Their
  results are parameters, and an exception caught there is not modelled.
- The older provider's `GetItem`, `GetTables`, `GetSchemas`, `GetRows`,
  `GetRow`, `NewDrive`, `RemoveDrive` and `NewDriveDynamicParameters`. They
  only call OleDb or types the repository no longer defines.
- `RemoveDrive` and `NewDriveDynamicParameters` of the navigation provider:
  a cast and a constructor call with no logic of their own.
- Host output other than `WriteItemObject` and `WriteError` (verbose and
  debug messages). What the provider writes is the `Output` and `Errors`
  sequences; the error category of a record is not kept.
- `PathDescriptor`, `DatabaseUtils.NormalizePath`, `RemoveDriveFromPath`,
  `PATH_VALIDATOR`, `GetSelectStringForTable`, `PSObjectBuilder`,
  `BaseQueryManager`, `OracleDatabaseTableInfo` and `IDatabaseSchemaInfo`
  are not part of this model as source files. The navigation provider
  receives the first four as function-valued `Collaborators`. The Oracle
  `BuildDatabaseTableInfo` (src/DataModel/Oracle/OracleDatabaseFactory.cs:65-67)
  returns an `OracleDatabaseTableInfo`, which is modelled by the
  `DatabaseTableInfo` class with the properties that builder assigns. A query's select is named by
  the table. A built record is the row's columns in ordinal order. The
  query manager is the `QueryRunner` handed to `ProcessRecord`.
- The navigation provider talks to a `Driver`, a record of the answers a
  drive gives. It is not linked to the Oracle and PostgreSQL driver
  models, and its enumerations do not throw partway through.
- NavigationProvider.DatabaseProvider.GetChildItems: requires `Layered`.
  Schema paths must classify below the database, and table paths below
  the object type. Without that, the source's recursion need not end.
- PgDrive.GetSchemas: `new PgDatabaseSchemaInfo()` does not match the
  class's only constructor, which takes three arguments. The model assumes
  it gives a record whose catalog, owner and schema name are all null.
  `PgDrive.GetSchema`'s "only a null name finds a schema" rests on that
  assumption.
- Commented-out code: `GetChildName`, `ExpandPath` and the PostgreSQL
  builder bodies.
- NavigationProvider.MakePath, through NavigationProvider.DropTrailingSeparator
  and NavigationProvider.DropLeadingSeparator: the separator tests are
  ordinal. The source calls the culture-sensitive `EndsWith(string)` and
  `StartsWith(string)` (src/DatabaseProvider.cs:589 and :594), which also
  match across ignorable characters. For `a\` followed by a soft hyphen,
  the source removes the soft hyphen and keeps the `\`, while the model
  leaves the path alone. Culture data is not modelled.
- NavigationProvider.DropTrailingSeparator: an ordinal `EndsWith`, where
  src/DatabaseProvider.cs:589 is culture-sensitive (see the line above).
- NavigationProvider.DropLeadingSeparator: an ordinal `StartsWith`, where
  src/DatabaseProvider.cs:594 is culture-sensitive (see the line above).
- Case folding is ASCII only: ordinal ignore-case, current-culture
  ignore-case and the regex `IgnoreCase` option fold `a`-`z` with `A`-`Z`
  and nothing else.
- A column a row does not have reads as `DBNull`. The .NET indexer and
  `GetOrdinal` throw instead.
- Readers.GetInt64: the conversion is stated for `long`, `int` and whole
  `decimal` values only, not for every type the provider's getter accepts.
- `NameIsValid` on a null name, where `Regex.IsMatch` throws
  `ArgumentNullException`: names are non-null strings in the model.
- The Oracle records (`OracleDatabaseColumnInfo`, `DatabaseTableInfo`,
  `OracleDatabaseViewInfo`) and `PgDatabaseColumnInfo` keep the catalogue
  properties that no operation reasons about in maps. The Oracle maps are
  keyed by column name and the PostgreSQL one by property name.
  `PgDatabaseTableInfo` has each of its fifteen properties as a field of
  its own. `DateTime`, `DataRow` and primary-key values are
  opaque.
- InvokeQuery.InvokeQueryCmdlet.EndProcessing: only the connection's
  disposal is observed.
