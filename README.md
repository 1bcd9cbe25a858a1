# SQLServerDatabaseCopy, modelled in Dafny

SQLServerDatabaseCopy clones every user database of a SQL Server instance.
For each source database it does four things, in this order:

1. It scripts the source's schema with SMO's `Transfer`.
2. It creates a clone named after the source plus a suffix, with the source's collation.
3. It runs the script on the clone, line by line.
4. When the clone has tables, it bulk-copies every table's rows from the source.

This project models the three classes that make up that run, and proves what they promise.

- `settings.dfy` (module `Settings`) is `ApplicationSettingsHelper`. It covers:
  - the configuration reads and their empty defaults;
  - the per-database connection string, which replaces `"master"` with the database name;
  - the timestamp suffix, which is `"_"` followed by the clock string with every character outside `[\w.@-]` dropped.

  These are pure functions. `String.Replace` is written out as the ordinal, left-to-right, single-pass scan that .NET performs, and the regular-expression filter as a character filter. The class `\w` is a parameter `wordChar` of the filter, of which only one thing is assumed: it accepts the ASCII letters, digits and `_`.
- `table_copy.dfy` (module `TableCopy`) is `DatabaseTableManager`. It covers:
  - the column projection, built by the indexed loop and keeping its trailing-comma quirk;
  - the `SELECT` statement, the destination name and the column mappings;
  - the per-table copy loop. A failed bulk write is caught and the loop carries on. A failed read or destination connection escapes. The reader is closed whenever the write was attempted.
- `schema_copy.dfy` (module `SchemaCopy`) is `DatabaseSchemaManager`, a class whose fields are set by the validation step and read later. It covers:
  - the connection check, which distinguishes `SqlException` from any other exception;
  - the validation, which stores the connection string and a generated suffix;
  - the abort path;
  - the order-preserving filter of user databases;
  - schema scripting and application, where each script line is logged only after it ran;
  - the per-database loop, in which nothing is caught.
- `server.dfy` (module `Server`) describes the outside world. It holds:
  - the SMO and SqlClient descriptors: databases, tables and columns;
  - the log file, as the sequence of lines written to it;
  - the server, as an outcome oracle.

  Every network call is a `Request` the server records. The outcome of request number `n` is entry `n` of a script of outcomes fixed when the server is created: `Ok`, `SqlFailure` or `OtherFailure`. Requests past the end of the script succeed.
- `wrappers.dfy` (module `Wrappers`) holds `Option`, used for C# references that may be null.

An exception that escapes a method is modelled by a `completed: bool` result that is false. The console entry point catches whatever escapes and ends the run, so a false result propagates up unchanged.

Each imperative method is proved against a specification function of the outcome script. These functions are `DataCopy`, `TableLoop`, `SchemaTrace`, `ScriptLoop`, `DatabaseStep`, `DatabaseLoop`, `DatabaseCopy` and `InitializeTrace`. Each returns a `Trace`: the log lines written, the requests made, and whether the piece ended normally. Every method ensures three things:

- the log grew by exactly the trace's lines;
- the request list grew by exactly the trace's requests;
- its result is the trace's `completed`.

The properties the program promises are proved as lemmas about those functions, for every outcome script: what is logged, in which order, what is sent, what stops the run, and what does not stop it.

The schema manager's log lines are a `Message` datatype. `Text` gives each line exactly as the source writes it, and `Render` maps a sequence of messages to lines. The table manager writes plain strings, and the schema manager passes them through unchanged (`RenderFromTableManager`).

Two quirks of the source are kept as written, and both are stated as lemmas:

- **The projection can end in a comma.** `GetListOfColumnsOfTable` decides the comma by the column's index, not by whether a later column is included. When the last column is computed, the projection ends in `,`: `OrdersProjectionKeepsComma` and `TrailingCommaIff`.
- **A configured suffix is never used.** `ValidateConnectionSettings` stores a suffix only when it generates one, so a non-empty configured suffix never reaches the field: `ConfiguredSuffixNeverStored`. The field starts null, and `name + null` is `name` in C#. So with a configured suffix every clone gets its source's own name: `ConfiguredSuffixClonesUnderSourceName`.

## Model

Source paths are relative to the repository root.

| member | source | states |
|---|---|---|
| Settings.GetConnectionString | SQLServerDatabaseCopy/SQLServerDatabaseCopy/ApplicationSettingsHelper.cs:73-85 | the `SqlServerConnection` entry's value when present, `""` when the entry is missing |
| Settings.GetCloneDatabaseNameSuffix | SQLServerDatabaseCopy/SQLServerDatabaseCopy/ApplicationSettingsHelper.cs:91-103 | the `CloneDatabaseNameSuffix` setting when present, `""` when it is missing |
| Settings.NewApplicationSettingsHelper | SQLServerDatabaseCopy/SQLServerDatabaseCopy/ApplicationSettingsHelper.cs:28-32 | both properties come from the configuration reads; each is `""` when its entry is absent |
| Settings.ReplaceLeadingOccurrence | SQLServerDatabaseCopy/SQLServerDatabaseCopy/ApplicationSettingsHelper.cs:54 | an occurrence at the front is replaced and the inserted text is not rescanned |
| Settings.ReplaceWithoutOccurrence | SQLServerDatabaseCopy/SQLServerDatabaseCopy/ApplicationSettingsHelper.cs:54 | a text without the token is returned unchanged |
| Settings.ReplaceLength | SQLServerDatabaseCopy/SQLServerDatabaseCopy/ApplicationSettingsHelper.cs:54 | the result's length is the input's plus, per non-overlapping occurrence found by the scan, the difference of the two lengths |
| Settings.ReplaceUnchangedIff | SQLServerDatabaseCopy/SQLServerDatabaseCopy/ApplicationSettingsHelper.cs:54 | the replacement leaves the text unchanged if and only if the token is absent or is replaced by itself |
| Settings.UserDatabaseConnectionStringUnchangedIff | SQLServerDatabaseCopy/SQLServerDatabaseCopy/ApplicationSettingsHelper.cs:43-57 | `""` when the entry is missing; the template itself when it has no `master`; it equals the template if and only if the template has no `master` or the database is `master` |
| Settings.KeepSuffixChars | SQLServerDatabaseCopy/SQLServerDatabaseCopy/ApplicationSettingsHelper.cs:65 | the filtered text is no longer than its input and every character of it matches `[\w.@-]` |
| Settings.GetNewCloneDatabaseNameSuffix | SQLServerDatabaseCopy/SQLServerDatabaseCopy/ApplicationSettingsHelper.cs:63-67 | the suffix starts with `_`, is at most one longer than the clock string, and every later character matches `[\w.@-]` |
| Settings.KeepSuffixCharsConcat | SQLServerDatabaseCopy/SQLServerDatabaseCopy/ApplicationSettingsHelper.cs:65 | the filter works character by character: filtering a concatenation filters each part |
| Settings.KeepSuffixCharsIdentityIff | SQLServerDatabaseCopy/SQLServerDatabaseCopy/ApplicationSettingsHelper.cs:65 | the filter returns its input if and only if every character of it matches |
| Settings.KeepSuffixCharsIdempotent | SQLServerDatabaseCopy/SQLServerDatabaseCopy/ApplicationSettingsHelper.cs:65 | filtering twice is filtering once |
| Settings.SuffixIsFiltered | SQLServerDatabaseCopy/SQLServerDatabaseCopy/ApplicationSettingsHelper.cs:63-67 | the part of a generated suffix after `_` is the filtered clock string, and re-filtering it changes nothing |
| Settings.KeepSuffixCharsIsSubsequence | SQLServerDatabaseCopy/SQLServerDatabaseCopy/ApplicationSettingsHelper.cs:65 | the kept characters appear in the clock string in the same order |
| Settings.KeepSuffixCharsCounts | SQLServerDatabaseCopy/SQLServerDatabaseCopy/ApplicationSettingsHelper.cs:65 | every matching character is kept as often as it occurs, and no other character is kept |
| Settings.AsciiSuffixCharsKept | SQLServerDatabaseCopy/SQLServerDatabaseCopy/ApplicationSettingsHelper.cs:65 | for any `\w` that covers the ASCII word characters, every ASCII letter and digit, `_`, `.`, `@` and `-` of the clock string is kept as often as it occurs |
| Server.LogFileManager.WriteToLogFile | SQLServerDatabaseCopy/SQLServerDatabaseCopy/LogFileManager.cs:65-75 | appends exactly the given line to the log |
| Server.SqlServer.Send | SQLServerDatabaseCopy/SQLServerDatabaseCopy/DatabaseSchemaManager.cs:198 | a network call is recorded as the next request and ends with the script's outcome for it; open readers are unchanged |
| Server.SqlServer.OpenReader | SQLServerDatabaseCopy/SQLServerDatabaseCopy/DatabaseTableManager.cs:131 | executing a reader is recorded as a request; exactly when it succeeds, one more reader is open |
| Server.SqlServer.CloseReader | SQLServerDatabaseCopy/SQLServerDatabaseCopy/DatabaseTableManager.cs:166 | closing a reader leaves one open reader fewer and makes no request |
| TableCopy.InsertableMembership | SQLServerDatabaseCopy/SQLServerDatabaseCopy/DatabaseTableManager.cs:47-57 | a column is written if and only if it is a column of the table and is not computed |
| TableCopy.InsertableConcat | SQLServerDatabaseCopy/SQLServerDatabaseCopy/DatabaseTableManager.cs:47-57 | the included columns keep table order: the filter distributes over concatenation |
| TableCopy.ColumnListShape | SQLServerDatabaseCopy/SQLServerDatabaseCopy/DatabaseTableManager.cs:42-61 | the projection is the non-computed columns, in order, each as `[name]`, comma-separated, plus one trailing comma exactly when the last column is computed and some column is included |
| TableCopy.ColumnListWithoutComputed | SQLServerDatabaseCopy/SQLServerDatabaseCopy/DatabaseTableManager.cs:47-57 | with no computed column the projection is the plain comma-joined list of all columns |
| TableCopy.ColumnListEmptyIff | SQLServerDatabaseCopy/SQLServerDatabaseCopy/DatabaseTableManager.cs:44-60 | the projection is empty if and only if no column is included (no columns, or only computed ones) |
| TableCopy.TrailingCommaIff | SQLServerDatabaseCopy/SQLServerDatabaseCopy/DatabaseTableManager.cs:53-56 | the projection ends with `,` if and only if the last column is computed and another column is included |
| TableCopy.OrdersProjectionKeepsComma | SQLServerDatabaseCopy/SQLServerDatabaseCopy/DatabaseTableManager.cs:53-56 | for `id, total, computedTax(computed)` the projection is `[id],[total],` |
| TableCopy.CustomersProjection | SQLServerDatabaseCopy/SQLServerDatabaseCopy/DatabaseTableManager.cs:47-57 | for `id, name` the projection is `[id],[name]` |
| TableCopy.MappingsMatchColumns | SQLServerDatabaseCopy/SQLServerDatabaseCopy/DatabaseTableManager.cs:149 | the i-th mapping maps the i-th column's name to itself |
| TableCopy.MappingsMatchProjection | SQLServerDatabaseCopy/SQLServerDatabaseCopy/DatabaseTableManager.cs:142-151 | the bulk-copy mappings are exactly the included columns, in the projection's order, each mapped to the destination column of the same name |
| TableCopy.PlansAreSelects | SQLServerDatabaseCopy/SQLServerDatabaseCopy/DatabaseTableManager.cs:125-126 | every table's statement begins with `SELECT ` |
| TableCopy.DatabaseTableManager.constructor | SQLServerDatabaseCopy/SQLServerDatabaseCopy/DatabaseSchemaManager.cs:75-78 | the manager shares the log and the server and holds the connection string and the settings; no source database is set yet |
| TableCopy.DatabaseTableManager.GetListOfColumnsOfTable | SQLServerDatabaseCopy/SQLServerDatabaseCopy/DatabaseTableManager.cs:42-61 | the indexed loop returns the projection whose shape `ColumnListShape` states |
| TableCopy.DatabaseTableManager.AddColumnMappings | SQLServerDatabaseCopy/SQLServerDatabaseCopy/DatabaseTableManager.cs:144-151 | the `ColumnMappings.Add` loop yields the mappings that `MappingsMatchProjection` describes |
| TableCopy.DatabaseTableManager.CopyTable | SQLServerDatabaseCopy/SQLServerDatabaseCopy/DatabaseTableManager.cs:123-170 | one table: the statement is logged before the read; a failed read or destination connection escapes; a failed write is caught; only a successful write is logged; when the iteration ends normally the reader was closed |
| TableCopy.DatabaseTableManager.CopyNextTable | SQLServerDatabaseCopy/SQLServerDatabaseCopy/DatabaseTableManager.cs:121-171 | one iteration extends the loop's log and requests by the next table's |
| TableCopy.DatabaseTableManager.CopyTables | SQLServerDatabaseCopy/SQLServerDatabaseCopy/DatabaseTableManager.cs:121-171 | the loop over the tables, in order, until one throws; no reader is left open when it ends normally |
| TableCopy.DatabaseTableManager.CopyDataFromTableToTable | SQLServerDatabaseCopy/SQLServerDatabaseCopy/DatabaseTableManager.cs:101-178 | the data copy: open the source, log and run `USE [source]`, log the table count, copy each table into the clone's connection string, log the closing line |
| TableCopy.DataCopyAfterUse | SQLServerDatabaseCopy/SQLServerDatabaseCopy/DatabaseTableManager.cs:110-177 | once `USE` succeeded the log is the `USE` line, the count, the loop's lines and the closing line exactly when the loop ended normally |
| TableCopy.ExtendLoop | SQLServerDatabaseCopy/SQLServerDatabaseCopy/DatabaseTableManager.cs:121-171 | running the next table appends that table's log and requests to the loop's |
| TableCopy.LoopStopsAfterFailure | SQLServerDatabaseCopy/SQLServerDatabaseCopy/DatabaseTableManager.cs:131-138 | once a table has thrown, no later table is attempted |
| TableCopy.ReaderFailureEndsLoop | SQLServerDatabaseCopy/SQLServerDatabaseCopy/DatabaseTableManager.cs:130-131 | a failed read ends the loop: its statement is the last line logged and its read the last request |
| TableCopy.LoopRequestsAt | SQLServerDatabaseCopy/SQLServerDatabaseCopy/DatabaseTableManager.cs:131-155 | per table three requests in order: the read, the destination connection, the bulk write with the table's name and mappings |
| TableCopy.CompletedLoopShape | SQLServerDatabaseCopy/SQLServerDatabaseCopy/DatabaseTableManager.cs:121-171 | a loop that ends normally made three requests per table whatever the writes did, and logged per table its statement and, only after a successful write, the success line |
| TableCopy.CompletedDataCopyShape | SQLServerDatabaseCopy/SQLServerDatabaseCopy/DatabaseTableManager.cs:101-178 | a data copy that ends normally: its whole log and all its requests, table by table |
| TableCopy.SuccessLineIff | SQLServerDatabaseCopy/SQLServerDatabaseCopy/DatabaseTableManager.cs:153-162 | a table's success line is in the loop's log if and only if the table was reached and its write succeeded |
| TableCopy.EveryWriteAttempted | SQLServerDatabaseCopy/SQLServerDatabaseCopy/DatabaseTableManager.cs:142-155 | in a data copy that ends normally every table's bulk write was sent, in table order, with its destination name and mappings |
| TableCopy.WriteFailureIsolated | SQLServerDatabaseCopy/SQLServerDatabaseCopy/DatabaseTableManager.cs:153-162 | in a data copy that ends normally a table's success line is logged if and only if its own write succeeded, whatever happened to the other tables |
| TableCopy.FailedLoopEndsWithSelect | SQLServerDatabaseCopy/SQLServerDatabaseCopy/DatabaseTableManager.cs:130-138 | a loop that threw stopped at a table `a` whose read or destination connection failed: the loop up to `a` completed, nothing after `a` was reached, and the log ends with `a`'s SELECT |
| TableCopy.FinalLineIffCompleted | SQLServerDatabaseCopy/SQLServerDatabaseCopy/DatabaseTableManager.cs:176-177 | the closing line is the last line logged if and only if the data copy ends normally |
| TableCopy.LoopCompletesDespiteWriteFailures | SQLServerDatabaseCopy/SQLServerDatabaseCopy/DatabaseTableManager.cs:153-167 | when every read and destination connection succeeds the loop ends normally, whatever the writes do |
| TableCopy.FinalLineDespiteWriteFailures | SQLServerDatabaseCopy/SQLServerDatabaseCopy/DatabaseTableManager.cs:153-177 | failed writes never suppress the closing line: with the connections and reads succeeding, the copy ends normally with the closing line last |
| TableCopy.EmptyDatabaseCopy | SQLServerDatabaseCopy/SQLServerDatabaseCopy/DatabaseTableManager.cs:110-177 | a database without tables logs the `USE` line, a count of 0 and the closing line, and makes two requests |
| TableCopy.TableLoopMakesDataRequests | SQLServerDatabaseCopy/SQLServerDatabaseCopy/DatabaseTableManager.cs:121-171 | the loop only reads, connects and bulk-writes |
| TableCopy.DataCopyMakesDataRequests | SQLServerDatabaseCopy/SQLServerDatabaseCopy/DatabaseTableManager.cs:101-178 | the data copy only connects, executes commands, reads and bulk-writes: it never creates a database |
| SchemaCopy.UserDatabases | SQLServerDatabaseCopy/SQLServerDatabaseCopy/DatabaseSchemaManager.cs:106-113 | the filter keeps no system database and never grows the list |
| SchemaCopy.UserDatabasesConcat | SQLServerDatabaseCopy/SQLServerDatabaseCopy/DatabaseSchemaManager.cs:106-113 | the filter keeps enumeration order: it distributes over concatenation |
| SchemaCopy.UserDatabasesMembership | SQLServerDatabaseCopy/SQLServerDatabaseCopy/DatabaseSchemaManager.cs:106-113 | a database is kept if and only if it is enumerated and is not a system object |
| SchemaCopy.UserDatabasesMultiplicity | SQLServerDatabaseCopy/SQLServerDatabaseCopy/DatabaseSchemaManager.cs:103-113 | a user database is kept exactly as often as it is enumerated, a system database never |
| SchemaCopy.ScriptLoopIsExecutedPrefix | SQLServerDatabaseCopy/SQLServerDatabaseCopy/DatabaseSchemaManager.cs:206-213 | the script loop's log is exactly the prefix of the script that executed; when it threw, the next line failed |
| SchemaCopy.FailedScriptRequests | SQLServerDatabaseCopy/SQLServerDatabaseCopy/DatabaseSchemaManager.cs:206-213 | a script loop that threw sent the logged lines and the failing one, and no later line |
| SchemaCopy.CompletedScriptRequests | SQLServerDatabaseCopy/SQLServerDatabaseCopy/DatabaseSchemaManager.cs:206-213 | a script loop that ends normally sent every line, in order |
| SchemaCopy.ExtendScriptLoop | SQLServerDatabaseCopy/SQLServerDatabaseCopy/DatabaseSchemaManager.cs:208-212 | running the next line sends it and logs it only when it succeeded |
| SchemaCopy.ScriptLoopStopsAfterFailure | SQLServerDatabaseCopy/SQLServerDatabaseCopy/DatabaseSchemaManager.cs:206-213 | once a line has thrown, no later line is sent |
| SchemaCopy.ScriptLoopSendsScriptLines | SQLServerDatabaseCopy/SQLServerDatabaseCopy/DatabaseSchemaManager.cs:206-213 | the script loop sends only commands that are lines of the script |
| SchemaCopy.SchemaLogIsExecutedPrefix | SQLServerDatabaseCopy/SQLServerDatabaseCopy/DatabaseSchemaManager.cs:191-215 | once the clone is selected the log is the two announcements, the `USE` command, exactly the executed prefix of the script, and the closing line if and only if the whole script ran |
| SchemaCopy.SchemaRequestsAfterUse | SQLServerDatabaseCopy/SQLServerDatabaseCopy/DatabaseSchemaManager.cs:191-213 | once the clone is selected the requests are create, open, `USE`, then the script loop's |
| SchemaCopy.CompletedSchemaSelectedClone | SQLServerDatabaseCopy/SQLServerDatabaseCopy/DatabaseSchemaManager.cs:191-204 | a schema copy that ends normally created, connected to and selected the clone |
| SchemaCopy.CompletedSchemaRequests | SQLServerDatabaseCopy/SQLServerDatabaseCopy/DatabaseSchemaManager.cs:191-213 | a schema copy that ends normally sent create, open, `USE`, then every script line in order |
| SchemaCopy.SchemaCreatesOnlyTheClone | SQLServerDatabaseCopy/SQLServerDatabaseCopy/DatabaseSchemaManager.cs:189-219 | the schema copy first creates the clone with the given collation and otherwise only connects and executes commands |
| SchemaCopy.StepScriptsThenCreates | SQLServerDatabaseCopy/SQLServerDatabaseCopy/DatabaseSchemaManager.cs:81-84 | a database is first scripted for its clone, and only after that succeeds is the clone created with the source's collation |
| SchemaCopy.StepCreatesOnlyItsClone | SQLServerDatabaseCopy/SQLServerDatabaseCopy/DatabaseSchemaManager.cs:81-89 | the only database one iteration creates is `source name + suffix`, with the source's collation |
| SchemaCopy.CloneCreatesOnlyItsClone | SQLServerDatabaseCopy/SQLServerDatabaseCopy/DatabaseSchemaManager.cs:84-89 | the schema and data phases create no database other than the clone |
| SchemaCopy.DataTraceMakesDataRequests | SQLServerDatabaseCopy/SQLServerDatabaseCopy/DatabaseSchemaManager.cs:87-88 | the data phase of an iteration only connects, executes, reads and bulk-writes |
| SchemaCopy.DataCopiedIffCloneHasTables | SQLServerDatabaseCopy/SQLServerDatabaseCopy/DatabaseSchemaManager.cs:85-89 | after the schema copy, the data copy runs if and only if the clone has tables, and it starts by opening the configured connection |
| SchemaCopy.DatabaseStepAfterGeneration | SQLServerDatabaseCopy/SQLServerDatabaseCopy/DatabaseSchemaManager.cs:83-89 | an iteration is the schema generation followed by the clone phase |
| SchemaCopy.CloneTraceAfterSchema | SQLServerDatabaseCopy/SQLServerDatabaseCopy/DatabaseSchemaManager.cs:84-89 | when the clone has tables, the clone phase is the schema copy followed by the data copy |
| SchemaCopy.ExtendDatabaseLoop | SQLServerDatabaseCopy/SQLServerDatabaseCopy/DatabaseSchemaManager.cs:79-90 | running the next database appends its iteration to the loop's log and requests |
| SchemaCopy.DatabaseLoopStopsAfterStep | SQLServerDatabaseCopy/SQLServerDatabaseCopy/DatabaseSchemaManager.cs:79-90 | a database whose iteration throws is the last one attempted |
| SchemaCopy.DatabaseLoopStopsAfterFailure | SQLServerDatabaseCopy/SQLServerDatabaseCopy/DatabaseSchemaManager.cs:79-90 | once an iteration has thrown, no later database is attempted |
| SchemaCopy.LoopCreatesOnlyClones | SQLServerDatabaseCopy/SQLServerDatabaseCopy/DatabaseSchemaManager.cs:79-90 | every database the loop creates is the clone of one of the databases it was given |
| SchemaCopy.CompletedLoopCreatesEveryClone | SQLServerDatabaseCopy/SQLServerDatabaseCopy/DatabaseSchemaManager.cs:79-90 | a loop that ends normally created the clone of every database it was given |
| SchemaCopy.DatabaseCopyAfterList | SQLServerDatabaseCopy/SQLServerDatabaseCopy/DatabaseSchemaManager.cs:72-91 | the copy is the listing followed by the loop over the user databases |
| SchemaCopy.OnlyUserDatabasesCloned | SQLServerDatabaseCopy/SQLServerDatabaseCopy/DatabaseSchemaManager.cs:72-91 | the copy never creates a database other than the clone of a user database |
| SchemaCopy.CompletedCopyClonesEveryUserDatabase | SQLServerDatabaseCopy/SQLServerDatabaseCopy/DatabaseSchemaManager.cs:72-91 | a copy that ends normally created the clone of every user database |
| SchemaCopy.ConfiguredSuffixNeverStored | SQLServerDatabaseCopy/SQLServerDatabaseCopy/DatabaseSchemaManager.cs:221-232 | a non-empty configured suffix is never stored: the field keeps its value |
| SchemaCopy.GeneratedSuffixStored | SQLServerDatabaseCopy/SQLServerDatabaseCopy/DatabaseSchemaManager.cs:224-230 | with an empty configured suffix and an available server the field holds `_` followed by the filtered clock string |
| SchemaCopy.ConfiguredSuffixClonesUnderSourceName | SQLServerDatabaseCopy/SQLServerDatabaseCopy/DatabaseSchemaManager.cs:81 | with the field never set and a non-empty configured suffix, each clone is named exactly like its source |
| SchemaCopy.CopyRunsIffAvailable | SQLServerDatabaseCopy/SQLServerDatabaseCopy/DatabaseSchemaManager.cs:126-143 | the databases are listed if and only if the connection check succeeds; otherwise exactly the two abort lines are logged after the one check request |
| SchemaCopy.DatabaseSchemaManager.constructor | SQLServerDatabaseCopy/SQLServerDatabaseCopy/DatabaseSchemaManager.cs:49-53 | the manager holds the settings and the log; no server, connection string or suffix yet |
| SchemaCopy.DatabaseSchemaManager.Execute | SQLServerDatabaseCopy/SQLServerDatabaseCopy/DatabaseSchemaManager.cs:62-67 | the run with the settings' connection string and suffix, as `InitializeTrace` describes it; the connection string, server and suffix fields as validating the settings' values leaves them |
| SchemaCopy.DatabaseSchemaManager.InitializeSqlServerConnection | SQLServerDatabaseCopy/SQLServerDatabaseCopy/DatabaseSchemaManager.cs:126-143 | validate, then either create the server and run the copy or log the two abort lines; the fields as validation leaves them |
| SchemaCopy.DatabaseSchemaManager.ValidateConnectionSettings | SQLServerDatabaseCopy/SQLServerDatabaseCopy/DatabaseSchemaManager.cs:221-232 | one check request; the connection string is stored only when the server is available, a generated suffix only when the configured one is also empty |
| SchemaCopy.DatabaseSchemaManager.CheckConnectionString | SQLServerDatabaseCopy/SQLServerDatabaseCopy/DatabaseSchemaManager.cs:239-254 | one connection attempt; false exactly when it fails with a `SqlException`; any other exception escapes |
| SchemaCopy.DatabaseSchemaManager.ExecuteDatabaseCopy | SQLServerDatabaseCopy/SQLServerDatabaseCopy/DatabaseSchemaManager.cs:72-91 | list the user databases, then copy each one in order until one throws |
| SchemaCopy.DatabaseSchemaManager.GetUserDatabases | SQLServerDatabaseCopy/SQLServerDatabaseCopy/DatabaseSchemaManager.cs:97-119 | two lines, the enumeration, the closing line; the result is the user databases in enumeration order |
| SchemaCopy.DatabaseSchemaManager.CopyDatabases | SQLServerDatabaseCopy/SQLServerDatabaseCopy/DatabaseSchemaManager.cs:79-90 | the loop over the databases, in order, until one throws |
| SchemaCopy.DatabaseSchemaManager.CopyNextDatabase | SQLServerDatabaseCopy/SQLServerDatabaseCopy/DatabaseSchemaManager.cs:79-90 | one pass of the loop extends it by the next database, and a pass that throws is the last |
| SchemaCopy.DatabaseSchemaManager.CopyDatabase | SQLServerDatabaseCopy/SQLServerDatabaseCopy/DatabaseSchemaManager.cs:80-89 | one database: the clone name is the source name plus the suffix field; script, create and fill, then copy the data |
| SchemaCopy.DatabaseSchemaManager.CopyToClone | SQLServerDatabaseCopy/SQLServerDatabaseCopy/DatabaseSchemaManager.cs:84-89 | the schema copy, then the data copy only when the clone has tables |
| SchemaCopy.DatabaseSchemaManager.CopyData | SQLServerDatabaseCopy/SQLServerDatabaseCopy/DatabaseSchemaManager.cs:87-88 | the source database is handed to the table manager, whose log lines are written unchanged |
| SchemaCopy.DatabaseSchemaManager.GenerateDatabaseSchema | SQLServerDatabaseCopy/SQLServerDatabaseCopy/DatabaseSchemaManager.cs:151-182 | a line before and after the scripting; the script is what `Transfer` produces for the source and the clone |
| SchemaCopy.DatabaseSchemaManager.CopySchema | SQLServerDatabaseCopy/SQLServerDatabaseCopy/DatabaseSchemaManager.cs:189-219 | create the clone, log two lines, connect, run and log `USE <clone>`, run the script, log the closing line |
| SchemaCopy.DatabaseSchemaManager.RunScript | SQLServerDatabaseCopy/SQLServerDatabaseCopy/DatabaseSchemaManager.cs:206-213 | each script line is executed, then logged, in order, until one throws |

## Left out

- Settings.KeepSuffixChars: `\w` is the parameter `wordChar`, assumed only to accept the ASCII letters, digits and `_`. Which other Unicode letters, digits and connector punctuation .NET's `\w` accepts is not written out.
- `DateTime.Now.ToString()` is the string parameter `now`. The configuration file is a parameter too: two maps, one for connection strings and one for application settings.
- `LogFileManager` is not modelled beyond `WriteToLogFile`, as an append to a sequence of lines. Its file handling, temporary file, final copy and `CloseLogFile` are file-system I/O.
- `Program.cs` is not modelled. It constructs the objects and catches whatever escapes `Execute`. That is why an escaped exception ends the run here.
- The `Transfer` options (`DatabaseSchemaManager.cs:154-176`) are not modelled. `ScriptTransfer` is a server-provided function from source and clone name to a sequence of script lines, and the call itself is one request that may fail.
- `Database.Tables.Count` of the clone is a server-provided function of the clone's name that cannot fail.
- Opening a connection, executing a command or a reader, a bulk write, creating a database and enumerating the databases are requests whose outcome comes from a finite outcome script. Requests past the end of the script succeed. Connection `Close` and `Dispose` are not modelled, and neither is the `connection.State` test, because a new connection is always closed.
- TableCopy.DatabaseTableManager.CopyDataFromTableToTable: on the path where an exception escapes, the open reader and connections are not tracked further. Only the normal path is stated to leave no reader open.
- Console output is not modelled. It has no effect on the log or on the server.
- `TableHasIdentityProperty` (`DatabaseTableManager.cs:64-95`) is not modelled: the program never calls it.
- Collation is not interpreted. It is the string given to the clone.
- The source's `DatabaseTableManager` declares no `ApplicationSettingsHelper` property, yet line 116 reads one and `DatabaseSchemaManager.cs:78` assigns one. The model gives the table manager that field. It holds the connection string and the settings as constants set at construction, because the schema manager assigns them once, right after creating it.
- C# `null` for the connection string and the suffix fields is `Option`. Appending an absent suffix appends nothing, as `name + null` does in C#.
- Several loop bodies and phases are separate methods so that each proof stays small: `RunScript`, `CopyDatabases`, `CopyNextDatabase`, `CopyDatabase`, `CopyToClone`, `CopyData`, `CopyTable`, `CopyNextTable` and `CopyTables`. Some of them take ghost parameters naming the request count and the environment. `WriteMessage` writes the text of one log message.
- Exceptions inside the per-database loop are not caught anywhere in the copy. An exception in any database's scripting, creation, schema or data phase stops all later databases. Nothing in the loop catches an exception, so there is no per-database error handling to model.
- An exception's message and stack trace are not modelled. Only whether one escaped is modelled.
