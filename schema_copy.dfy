/**
 * The schema manager: validates the configured connection, then for every
 * user database of the server, in enumeration order, scripts its schema,
 * creates a clone database named after it, runs the schema script on the
 * clone and, when the clone has tables, copies the data table by table.
 * Nothing in the run is caught here: the first exception that escapes ends
 * it (the console entry point catches it and stops).
 */
module SchemaCopy {
  import opened Wrappers
  import opened Server
  import Settings
  import TableCopy

  // ---------------------------------------------------------------------
  // User databases: an order-preserving filter
  // ---------------------------------------------------------------------

  /** The databases that are not system objects, in enumeration order. */
  function UserDatabases(databases: seq<Database>): (r: seq<Database>)
    ensures |r| <= |databases|
    ensures forall i :: 0 <= i < |r| ==> !r[i].isSystemObject
  {
    if databases == [] then []
    else
      var last := databases[|databases| - 1];
      UserDatabases(databases[..|databases| - 1]) + (if last.isSystemObject then [] else [last])
  }

  /** Filtering a concatenation filters each part and keeps them in order. */
  lemma {:induction false} UserDatabasesConcat(a: seq<Database>, b: seq<Database>)
    ensures UserDatabases(a + b) == UserDatabases(a) + UserDatabases(b)
    decreases |b|
  {
    if b == [] {
      assert a + b == a;
    } else {
      var last := b[|b| - 1];
      assert (a + b)[..|a + b| - 1] == a + b[..|b| - 1];
      UserDatabasesConcat(a, b[..|b| - 1]);
      AppendAssoc(UserDatabases(a), UserDatabases(b[..|b| - 1]), if last.isSystemObject then [] else [last]);
    }
  }

  /** A database is kept exactly when it is enumerated and is not a system object. */
  lemma {:induction false} UserDatabasesMembership(databases: seq<Database>, d: Database)
    ensures d in UserDatabases(databases) <==> d in databases && !d.isSystemObject
    decreases |databases|
  {
    if databases != [] {
      var front := databases[..|databases| - 1];
      UserDatabasesMembership(front, d);
      assert databases == front + [databases[|databases| - 1]];
    }
  }

  /** Every user database is kept as many times as it is enumerated, system databases never. */
  lemma {:induction false} UserDatabasesMultiplicity(databases: seq<Database>, d: Database)
    ensures multiset(UserDatabases(databases))[d] == if d.isSystemObject then 0 else multiset(databases)[d]
    decreases |databases|
  {
    if databases != [] {
      var front := databases[..|databases| - 1];
      var last := databases[|databases| - 1];
      UserDatabasesMultiplicity(front, d);
      assert databases == front + [last];
      assert multiset(databases) == multiset(front) + multiset{last};
      if last.isSystemObject {
        assert UserDatabases(databases) == UserDatabases(front) + [];
      } else {
        assert multiset(UserDatabases(databases)) == multiset(UserDatabases(front)) + multiset{last};
      }
    }
  }

  // ---------------------------------------------------------------------
  // Log entries
  // ---------------------------------------------------------------------

  /**
   * What the schema manager writes to the log, one constructor per kind of
   * line; `Text` gives the line itself. Commands are logged verbatim, and
   * the lines of the table manager are passed through unchanged.
   */
  datatype Message =
    | UsingConnection(connectionString: string)
    | GettingDatabases
    | DatabasesRetrieved
    | CannotInitialize(connectionString: string)
    | ProcessAborted
    | GenerationStarted(databaseName: string)
    | SchemaGenerated(databaseName: string)
    | CloneCreated(cloneName: string)
    | SchemaCopyStarted(cloneName: string)
    | Executed(commandText: string)
    | SchemaCopied(cloneName: string)
    | TableManagerLine(line: string)

  /** The line written to the log file for a message. */
  function Text(m: Message): string
  {
    match m
    case UsingConnection(cs) => "Using the Connection String: " + cs
    case GettingDatabases => "Getting the list of user databases installed in the selected server.."
    case DatabasesRetrieved => "The list of user databases installed in the selected server is retrieved."
    case CannotInitialize(cs) => "Cannot initialize a SQL Server connection using the given connection string " + cs
    case ProcessAborted => "The process cannot continue. Process aborted."
    case GenerationStarted(name) =>
      "Starting schema generation of database " + name + " to be copied for the cloned database."
    case SchemaGenerated(name) => "Generated schema of database " + name + " to be copied for the cloned database."
    case CloneCreated(clone) => "Clone Database : " + clone + " created."
    case SchemaCopyStarted(clone) => "Starting the schema copying from source database to clone database " + clone
    case Executed(command) => command
    case SchemaCopied(clone) => "Copied schema from source database to the clone database " + clone + "."
    case TableManagerLine(line) => line
  }

  /** The lines of the log file for a sequence of messages. */
  function Render(messages: seq<Message>): seq<string>
  {
    seq(|messages|, i requires 0 <= i < |messages| => Text(messages[i]))
  }

  /** The lines of the table manager, as messages. */
  function FromTableManager(lines: seq<string>): seq<Message>
  {
    seq(|lines|, i requires 0 <= i < |lines| => TableManagerLine(lines[i]))
  }

  /** Rendering a concatenation renders each part. */
  lemma RenderAppend(a: seq<Message>, b: seq<Message>)
    ensures Render(a + b) == Render(a) + Render(b)
  {
  }

  /** Logging one more message appends its text. */
  lemma RenderSnoc(messages: seq<Message>, m: Message)
    ensures Render(messages + [m]) == Render(messages) + [Text(m)]
  {
  }

  /** The table manager's lines are logged exactly as it wrote them. */
  lemma RenderFromTableManager(lines: seq<string>)
    ensures Render(FromTableManager(lines)) == lines
  {
  }

  /** The command that selects the clone (the name is not bracket-quoted here). */
  function UseClone(cloneName: string): string
  {
    "USE " + cloneName
  }

  // ---------------------------------------------------------------------
  // The run, as a function of the outcomes of the network calls
  // ---------------------------------------------------------------------

  /**
   * What the per-database phase reads from the manager and the server: the
   * connection string and the suffix fields, the configuration, the scripts
   * `Transfer` produces and the table count of each clone.
   */
  datatype Environment = Environment(
    connectionString: string,
    suffix: string,
    config: Settings.Configuration,
    scripts: (string, string) -> seq<string>,
    tableCounts: string -> nat)

  /** `GetUserDatabases`, at request number `k`: two lines, the enumeration, the closing line. */
  function ListTrace(connectionString: string, outcomes: seq<Outcome>, k: nat): Trace<Message>
  {
    if OutcomeAt(outcomes, k) != Ok
    then Trace([UsingConnection(connectionString), GettingDatabases], [EnumerateDatabases], false)
    else Trace([UsingConnection(connectionString), GettingDatabases, DatabasesRetrieved], [EnumerateDatabases], true)
  }

  /** `GenerateDatabaseSchema`, at request number `k`. */
  function GenerationTrace(databaseName: string, cloneName: string, outcomes: seq<Outcome>, k: nat): Trace<Message>
  {
    if OutcomeAt(outcomes, k) != Ok
    then Trace([GenerationStarted(databaseName)], [ScriptTransfer(databaseName, cloneName)], false)
    else Trace([GenerationStarted(databaseName), SchemaGenerated(databaseName)],
               [ScriptTransfer(databaseName, cloneName)], true)
  }

  /** One script line, at request number `k`: executed, then logged only when it succeeded. */
  function ScriptStep(line: string, outcomes: seq<Outcome>, k: nat): Trace<Message>
  {
    if OutcomeAt(outcomes, k) != Ok then Trace([], [ExecuteNonQuery(line)], false)
    else Trace([Executed(line)], [ExecuteNonQuery(line)], true)
  }

  /** The first `n` script lines, starting at request number `k`; line `i` is request `k + i`. */
  function ScriptLoop(script: seq<string>, outcomes: seq<Outcome>, k: nat, n: nat): Trace<Message>
    requires n <= |script|
  {
    if n == 0 then Skip()
    else Then(ScriptLoop(script, outcomes, k, n - 1), ScriptStep(script[n - 1], outcomes, k + n - 1))
  }

  /** The requests of the first `n` script lines. */
  function ScriptRequests(script: seq<string>, n: nat): (r: seq<Request>)
    requires n <= |script|
    ensures |r| == n
  {
    if n == 0 then [] else ScriptRequests(script, n - 1) + [ExecuteNonQuery(script[n - 1])]
  }

  /**
   * `CopySchema`, at request number `k`: create the clone, log two lines,
   * open the connection, select the clone and log the command, run the
   * script, log the closing line.
   */
  function SchemaTrace(cloneName: string, collation: string, script: seq<string>,
                       connectionString: string, outcomes: seq<Outcome>, k: nat): Trace<Message>
  {
    var create := CreateDatabase(cloneName, collation);
    var open := OpenConnection(connectionString);
    var use := ExecuteNonQuery(UseClone(cloneName));
    var announced := [CloneCreated(cloneName), SchemaCopyStarted(cloneName)];
    if OutcomeAt(outcomes, k) != Ok then Trace([], [create], false)
    else if OutcomeAt(outcomes, k + 1) != Ok then Trace(announced, [create, open], false)
    else if OutcomeAt(outcomes, k + 2) != Ok then Trace(announced, [create, open, use], false)
    else
      var run := ScriptLoop(script, outcomes, k + 3, |script|);
      var lines := announced + [Executed(UseClone(cloneName))] + run.lines;
      var requests := [create, open, use] + run.requests;
      if run.completed then Trace(lines + [SchemaCopied(cloneName)], requests, true)
      else Trace(lines, requests, false)
  }

  /** The name of the clone of `database`. */
  function CloneName(database: Database, env: Environment): string
  {
    database.name + env.suffix
  }

  /** The table manager's copy into the clone, as a trace of the schema manager. */
  ghost function DataTrace(database: Database, env: Environment, outcomes: seq<Outcome>, k: nat): Trace<Message>
  {
    var t := TableCopy.DataCopy(database, env.connectionString,
                                Settings.GetUserDatabaseConnectionString(env.config, CloneName(database, env)),
                                outcomes, k);
    Trace(FromTableManager(t.lines), t.requests, t.completed)
  }

  /**
   * The clone of `database` once its schema is scripted, at request number
   * `k`: create and fill it, then copy the data when it has tables.
   */
  ghost function CloneTrace(database: Database, env: Environment, outcomes: seq<Outcome>, k: nat): Trace<Message>
  {
    var clone := CloneName(database, env);
    var schema := SchemaTrace(clone, database.collation, env.scripts(database.name, clone),
                              env.connectionString, outcomes, k);
    if !schema.completed || env.tableCounts(clone) == 0 then schema
    else Then(schema, DataTrace(database, env, outcomes, k + |schema.requests|))
  }

  /** One source database, at request number `k`: script its schema, then make its clone. */
  ghost function DatabaseStep(database: Database, env: Environment, outcomes: seq<Outcome>, k: nat): Trace<Message>
  {
    var generation := GenerationTrace(database.name, CloneName(database, env), outcomes, k);
    if !generation.completed then generation
    else Then(generation, CloneTrace(database, env, outcomes, k + 1))
  }

  /** The first `n` databases, starting at request number `k`; each starts where the previous one ended. */
  ghost function DatabaseLoop(databases: seq<Database>, env: Environment, outcomes: seq<Outcome>, k: nat, n: nat): Trace<Message>
    requires n <= |databases|
    decreases n, 0
  {
    if n == 0 then Skip() else LoopThrough(databases, env, outcomes, k, n - 1)
  }

  /** The databases up to and including number `i`: those before it, then database `i`. */
  ghost function LoopThrough(databases: seq<Database>, env: Environment, outcomes: seq<Outcome>, k: nat, i: nat): Trace<Message>
    requires i < |databases|
    decreases i, 2
  {
    Then(DatabaseLoop(databases, env, outcomes, k, i), StepAt(databases, env, outcomes, k, i))
  }

  /** Database number `i` of the loop, started after the `i` databases before it. */
  ghost function StepAt(databases: seq<Database>, env: Environment, outcomes: seq<Outcome>, k: nat, i: nat): Trace<Message>
    requires i < |databases|
    decreases i, 1
  {
    DatabaseStep(databases[i], env, outcomes, k + |DatabaseLoop(databases, env, outcomes, k, i).requests|)
  }

  /** `ExecuteDatabaseCopy`, at request number `k`: list the user databases, then copy each. */
  ghost function DatabaseCopy(databases: seq<Database>, env: Environment, outcomes: seq<Outcome>, k: nat): Trace<Message>
  {
    var list := ListTrace(env.connectionString, outcomes, k);
    if !list.completed then list
    else
      var user := UserDatabases(databases);
      Then(list, DatabaseLoop(user, env, outcomes, k + 1, |user|))
  }

  /** Whether `CheckConnectionString` reports the connection available (it may also throw). */
  function ConnectionAvailable(outcomes: seq<Outcome>, k: nat): bool
  {
    OutcomeAt(outcomes, k) == Ok
  }

  /**
   * The suffix field after `ValidateConnectionSettings`: a generated suffix
   * when the connection is available and the configured suffix is empty,
   * otherwise the field as it was.
   */
  function SuffixAfterValidation(available: bool, configured: string, field: Option<string>, now: string,
                                 wordChar: char -> bool): Option<string>
  {
    if available && configured == "" then Some(Settings.GetNewCloneDatabaseNameSuffix(wordChar, now)) else field
  }

  /**
   * `InitializeSqlServerConnection`, at request number `k`: check the
   * connection (a non-SQL failure escapes), then either log the two abort
   * lines or run the copy; `env` is the environment the copy sees.
   */
  ghost function InitializeTrace(connectionString: string, databases: seq<Database>, env: Environment,
                                 outcomes: seq<Outcome>, k: nat): Trace<Message>
  {
    var check := Trace([], [OpenConnection(connectionString)], OutcomeAt(outcomes, k) != OtherFailure);
    if !check.completed then check
    else if !ConnectionAvailable(outcomes, k) then
      Trace([CannotInitialize(connectionString), ProcessAborted], [OpenConnection(connectionString)], true)
    else Then(check, DatabaseCopy(databases, env, outcomes, k + 1))
  }

  // ---------------------------------------------------------------------
  // Lemmas about the schema script
  // ---------------------------------------------------------------------

  /** `lines` logs, in order, the first `|lines|` commands of `script`. */
  predicate LogsPrefixOf(lines: seq<Message>, script: seq<string>)
  {
    |lines| <= |script| && forall i :: 0 <= i < |lines| ==> lines[i] == Executed(script[i])
  }

  /** Logging the next command of the script extends the logged prefix. */
  lemma LogsPrefixOfExtend(lines: seq<Message>, script: seq<string>)
    requires LogsPrefixOf(lines, script) && |lines| < |script|
    ensures LogsPrefixOf(lines + [Executed(script[|lines|])], script)
  {
  }

  /**
   * The log of the script loop is exactly the prefix of the script that
   * executed: every logged line succeeded, and when the loop threw, the
   * line after that prefix failed.
   */
  lemma {:induction false} ScriptLoopIsExecutedPrefix(script: seq<string>, outcomes: seq<Outcome>, k: nat, n: nat)
    requires n <= |script|
    ensures var t := ScriptLoop(script, outcomes, k, n);
            var m := |t.lines|;
            m <= n && LogsPrefixOf(t.lines, script) &&
            (forall j :: k <= j < k + m ==> OutcomeAt(outcomes, j) == Ok) &&
            (t.completed ==> m == n) &&
            (!t.completed ==> m < n && OutcomeAt(outcomes, k + m) != Ok)
    decreases n
  {
    if n > 0 {
      ScriptLoopIsExecutedPrefix(script, outcomes, k, n - 1);
      var before := ScriptLoop(script, outcomes, k, n - 1);
      if before.completed {
        var step := ScriptStep(script[n - 1], outcomes, k + n - 1);
        var t := ScriptLoop(script, outcomes, k, n);
        if step.completed {
          assert t.lines == before.lines + [Executed(script[n - 1])];
          LogsPrefixOfExtend(before.lines, script);
        } else {
          assert t.lines == before.lines;
        }
      }
    }
  }

  /** A script loop that threw sent the logged lines and the failing one, and nothing after it. */
  lemma {:induction false} FailedScriptRequests(script: seq<string>, outcomes: seq<Outcome>, k: nat, n: nat)
    requires n <= |script|
    requires !ScriptLoop(script, outcomes, k, n).completed
    ensures var t := ScriptLoop(script, outcomes, k, n);
            |t.lines| < n && t.requests == ScriptRequests(script, |t.lines| + 1)
    decreases n
  {
    var before := ScriptLoop(script, outcomes, k, n - 1);
    if !before.completed {
      FailedScriptRequests(script, outcomes, k, n - 1);
    } else {
      CompletedScriptRequests(script, outcomes, k, n - 1);
      ScriptLoopIsExecutedPrefix(script, outcomes, k, n - 1);
    }
  }

  /** A script loop that ends normally sent every line, in order. */
  lemma {:induction false} CompletedScriptRequests(script: seq<string>, outcomes: seq<Outcome>, k: nat, n: nat)
    requires n <= |script|
    requires ScriptLoop(script, outcomes, k, n).completed
    ensures ScriptLoop(script, outcomes, k, n).requests == ScriptRequests(script, n)
    decreases n
  {
    if n > 0 {
      CompletedScriptRequests(script, outcomes, k, n - 1);
    }
  }

  /** Running line `i` after a script loop that ran `i` lines, grouped as the method writes them. */
  lemma ExtendScriptLoop(script: seq<string>, outcomes: seq<Outcome>, k: nat, i: nat, requests0: seq<Request>)
    requires i < |script|
    requires ScriptLoop(script, outcomes, k, i).completed
    ensures var l := ScriptLoop(script, outcomes, k, i);
            var next := ScriptLoop(script, outcomes, k, i + 1);
            var ok := OutcomeAt(outcomes, k + |l.requests|) == Ok;
            |l.requests| == i &&
            next.lines == l.lines + (if ok then [Executed(script[i])] else []) &&
            (requests0 + l.requests) + [ExecuteNonQuery(script[i])] == requests0 + next.requests &&
            next.completed == ok
  {
    var l := ScriptLoop(script, outcomes, k, i);
    CompletedScriptRequests(script, outcomes, k, i);
    AppendAssoc(requests0, l.requests, [ExecuteNonQuery(script[i])]);
  }

  /** A script loop that threw stays as it was: no later line is sent. */
  lemma {:induction false} ScriptLoopStopsAfterFailure(script: seq<string>, outcomes: seq<Outcome>, k: nat, n: nat, m: nat)
    requires n <= m <= |script|
    requires !ScriptLoop(script, outcomes, k, n).completed
    ensures ScriptLoop(script, outcomes, k, m) == ScriptLoop(script, outcomes, k, n)
    decreases m
  {
    if m > n {
      ScriptLoopStopsAfterFailure(script, outcomes, k, n, m - 1);
    }
  }

  /**
   * `CopySchema` once the clone is selected: the log holds the two
   * announcements, the `USE` command, then exactly the executed prefix of
   * the script, and the closing line only when the whole script ran.
   */
  lemma SchemaLogIsExecutedPrefix(cloneName: string, collation: string, script: seq<string>,
                                  connectionString: string, outcomes: seq<Outcome>, k: nat)
    requires OutcomeAt(outcomes, k) == Ok && OutcomeAt(outcomes, k + 1) == Ok && OutcomeAt(outcomes, k + 2) == Ok
    ensures var t := SchemaTrace(cloneName, collation, script, connectionString, outcomes, k);
            var m := |t.lines| - 3 - (if t.completed then 1 else 0);
            0 <= m <= |script| &&
            t.lines[..3] == [CloneCreated(cloneName), SchemaCopyStarted(cloneName), Executed(UseClone(cloneName))] &&
            LogsPrefixOf(t.lines[3..3 + m], script) &&
            (forall j :: k + 3 <= j < k + 3 + m ==> OutcomeAt(outcomes, j) == Ok) &&
            (t.completed <==> m == |script|) &&
            (t.completed ==> t.lines[3 + m] == SchemaCopied(cloneName)) &&
            (!t.completed ==> OutcomeAt(outcomes, k + 3 + m) != Ok)
  {
    var head := [CloneCreated(cloneName), SchemaCopyStarted(cloneName), Executed(UseClone(cloneName))];
    var l := ScriptLoop(script, outcomes, k + 3, |script|);
    ScriptLoopIsExecutedPrefix(script, outcomes, k + 3, |script|);
    var t := SchemaTrace(cloneName, collation, script, connectionString, outcomes, k);
    var m := |l.lines|;
    if l.completed {
      assert |t.lines| - 3 - 1 == m;
    } else {
      assert |t.lines| - 3 == m;
    }
    assert t.lines[..3] == head;
    assert t.lines[3..3 + m] == l.lines;
  }

  /** Once the clone is selected, the requests are the three set-up requests followed by the script's. */
  lemma SchemaRequestsAfterUse(cloneName: string, collation: string, script: seq<string>,
                               connectionString: string, outcomes: seq<Outcome>, k: nat)
    requires OutcomeAt(outcomes, k) == Ok && OutcomeAt(outcomes, k + 1) == Ok && OutcomeAt(outcomes, k + 2) == Ok
    ensures var t := SchemaTrace(cloneName, collation, script, connectionString, outcomes, k);
            var l := ScriptLoop(script, outcomes, k + 3, |script|);
            t.requests == [CreateDatabase(cloneName, collation), OpenConnection(connectionString),
                           ExecuteNonQuery(UseClone(cloneName))] + l.requests &&
            t.completed == l.completed
  {
  }

  /** A `CopySchema` that ends normally created, opened and selected the clone. */
  lemma CompletedSchemaSelectedClone(cloneName: string, collation: string, script: seq<string>,
                                     connectionString: string, outcomes: seq<Outcome>, k: nat)
    requires SchemaTrace(cloneName, collation, script, connectionString, outcomes, k).completed
    ensures OutcomeAt(outcomes, k) == Ok && OutcomeAt(outcomes, k + 1) == Ok && OutcomeAt(outcomes, k + 2) == Ok
  {
  }

  /** A `CopySchema` that ends normally: create, open, `USE`, then every script line in order. */
  lemma CompletedSchemaRequests(cloneName: string, collation: string, script: seq<string>,
                                connectionString: string, outcomes: seq<Outcome>, k: nat)
    requires SchemaTrace(cloneName, collation, script, connectionString, outcomes, k).completed
    ensures SchemaTrace(cloneName, collation, script, connectionString, outcomes, k).requests ==
              [CreateDatabase(cloneName, collation), OpenConnection(connectionString),
               ExecuteNonQuery(UseClone(cloneName))] + ScriptRequests(script, |script|)
  {
    CompletedSchemaSelectedClone(cloneName, collation, script, connectionString, outcomes, k);
    SchemaRequestsAfterUse(cloneName, collation, script, connectionString, outcomes, k);
    var l := ScriptLoop(script, outcomes, k + 3, |script|);
    assert l.completed;
    CompletedScriptRequests(script, outcomes, k + 3, |script|);
    assert l.requests == ScriptRequests(script, |script|);
  }

  /** The script loop sends nothing but lines of the script, as commands. */
  lemma {:induction false} ScriptLoopSendsScriptLines(script: seq<string>, outcomes: seq<Outcome>, k: nat, n: nat)
    requires n <= |script|
    ensures forall r :: r in ScriptLoop(script, outcomes, k, n).requests ==> r.ExecuteNonQuery? && r.commandText in script
    decreases n
  {
    if n > 0 {
      ScriptLoopSendsScriptLines(script, outcomes, k, n - 1);
    }
  }

  /**
   * `CopySchema` first creates the clone, and otherwise only opens a
   * connection and executes commands: the clone is the one database it creates.
   */
  lemma SchemaCreatesOnlyTheClone(cloneName: string, collation: string, script: seq<string>,
                                  connectionString: string, outcomes: seq<Outcome>, k: nat)
    ensures var t := SchemaTrace(cloneName, collation, script, connectionString, outcomes, k);
            |t.requests| >= 1 && t.requests[0] == CreateDatabase(cloneName, collation) &&
            forall r :: r in t.requests ==>
              r == CreateDatabase(cloneName, collation) || r == OpenConnection(connectionString) || r.ExecuteNonQuery?
  {
    ScriptLoopSendsScriptLines(script, outcomes, k + 3, |script|);
  }

  // ---------------------------------------------------------------------
  // Lemmas about the per-database loop
  // ---------------------------------------------------------------------

  /**
   * A database step first scripts the source for its clone; once that
   * succeeds it creates the clone; it can only end normally when the
   * scripting succeeded.
   */
  lemma StepScriptsThenCreates(database: Database, env: Environment, outcomes: seq<Outcome>, k: nat)
    ensures var s := DatabaseStep(database, env, outcomes, k);
            var clone := CloneName(database, env);
            |s.requests| >= 1 && s.requests[0] == ScriptTransfer(database.name, clone) &&
            (OutcomeAt(outcomes, k) == Ok ==> |s.requests| >= 2 && s.requests[1] == CreateDatabase(clone, database.collation)) &&
            (s.completed ==> OutcomeAt(outcomes, k) == Ok)
  {
    var clone := CloneName(database, env);
    SchemaCreatesOnlyTheClone(clone, database.collation, env.scripts(database.name, clone),
                              env.connectionString, outcomes, k + 1);
  }

  /** The only database a step creates is the clone of its source, with the source's collation. */
  lemma StepCreatesOnlyItsClone(database: Database, env: Environment, outcomes: seq<Outcome>, k: nat)
    ensures forall r :: r in DatabaseStep(database, env, outcomes, k).requests && r.CreateDatabase? ==>
              r == CreateDatabase(CloneName(database, env), database.collation)
  {
    CloneCreatesOnlyItsClone(database, env, outcomes, k + 1);
  }

  /** The only database the clone phase creates is the clone itself. */
  lemma CloneCreatesOnlyItsClone(database: Database, env: Environment, outcomes: seq<Outcome>, k: nat)
    ensures forall r :: r in CloneTrace(database, env, outcomes, k).requests && r.CreateDatabase? ==>
              r == CreateDatabase(CloneName(database, env), database.collation)
  {
    var clone := CloneName(database, env);
    var schema := SchemaTrace(clone, database.collation, env.scripts(database.name, clone),
                              env.connectionString, outcomes, k);
    SchemaCreatesOnlyTheClone(clone, database.collation, env.scripts(database.name, clone),
                              env.connectionString, outcomes, k);
    DataTraceMakesDataRequests(database, env, outcomes, k + |schema.requests|);
  }

  /** The data copy of a step only connects, executes, reads and bulk-writes. */
  lemma DataTraceMakesDataRequests(database: Database, env: Environment, outcomes: seq<Outcome>, k: nat)
    ensures forall r :: r in DataTrace(database, env, outcomes, k).requests ==> TableCopy.DataRequest(r)
  {
    TableCopy.DataCopyMakesDataRequests(database, env.connectionString,
                                        Settings.GetUserDatabaseConnectionString(env.config, CloneName(database, env)),
                                        outcomes, k);
  }

  /**
   * Once the schema is copied, the data copy runs exactly when the clone
   * has tables; it starts by opening the configured connection.
   */
  lemma DataCopiedIffCloneHasTables(database: Database, env: Environment, outcomes: seq<Outcome>, k: nat)
    requires OutcomeAt(outcomes, k) == Ok
    requires SchemaTrace(CloneName(database, env), database.collation, env.scripts(database.name, CloneName(database, env)),
                         env.connectionString, outcomes, k + 1).completed
    ensures var clone := CloneName(database, env);
            var schema := SchemaTrace(clone, database.collation, env.scripts(database.name, clone),
                                      env.connectionString, outcomes, k + 1);
            var s := DatabaseStep(database, env, outcomes, k);
            var n := 1 + |schema.requests|;
            |s.requests| >= n &&
            (|s.requests| > n <==> env.tableCounts(clone) != 0) &&
            (|s.requests| > n ==> s.requests[n] == OpenConnection(env.connectionString))
  {
  }

  /** A database step once its schema is generated, with its log and requests grouped as the method writes them. */
  lemma DatabaseStepAfterGeneration(database: Database, env: Environment, outcomes: seq<Outcome>, k: nat,
                                    lines0: seq<string>, requests0: seq<Request>)
    requires GenerationTrace(database.name, CloneName(database, env), outcomes, k).completed
    ensures var g := GenerationTrace(database.name, CloneName(database, env), outcomes, k);
            var c := CloneTrace(database, env, outcomes, k + 1);
            var s := DatabaseStep(database, env, outcomes, k);
            (lines0 + Render(g.lines)) + Render(c.lines) == lines0 + Render(s.lines) &&
            (requests0 + g.requests) + c.requests == requests0 + s.requests &&
            s.completed == c.completed
  {
    var g := GenerationTrace(database.name, CloneName(database, env), outcomes, k);
    var c := CloneTrace(database, env, outcomes, k + 1);
    RenderAppend(g.lines, c.lines);
    AppendAssoc(lines0, Render(g.lines), Render(c.lines));
    AppendAssoc(requests0, g.requests, c.requests);
  }

  /** A clone once its schema is copied, with its log and requests grouped as the method writes them. */
  /** A clone whose schema copy threw, or that has no tables, gets no data copy. */
  lemma CloneTraceWithoutData(database: Database, env: Environment, outcomes: seq<Outcome>, k: nat)
    ensures var clone := CloneName(database, env);
            var schema := SchemaTrace(clone, database.collation, env.scripts(database.name, clone),
                                      env.connectionString, outcomes, k);
            !schema.completed || env.tableCounts(clone) == 0 ==> CloneTrace(database, env, outcomes, k) == schema
  {
  }

  lemma CloneTraceAfterSchema(database: Database, env: Environment, outcomes: seq<Outcome>, k: nat,
                              lines0: seq<string>, requests0: seq<Request>)
    ensures var clone := CloneName(database, env);
            var schema := SchemaTrace(clone, database.collation, env.scripts(database.name, clone),
                                      env.connectionString, outcomes, k);
            var c := CloneTrace(database, env, outcomes, k);
            schema.completed && env.tableCounts(clone) != 0 ==>
              var d := DataTrace(database, env, outcomes, k + |schema.requests|);
              (lines0 + Render(schema.lines)) + Render(d.lines) == lines0 + Render(c.lines) &&
              (requests0 + schema.requests) + d.requests == requests0 + c.requests &&
              c.completed == d.completed
  {
    var clone := CloneName(database, env);
    var schema := SchemaTrace(clone, database.collation, env.scripts(database.name, clone),
                              env.connectionString, outcomes, k);
    if schema.completed && env.tableCounts(clone) != 0 {
      var d := DataTrace(database, env, outcomes, k + |schema.requests|);
      RenderAppend(schema.lines, d.lines);
      AppendAssoc(lines0, Render(schema.lines), Render(d.lines));
      AppendAssoc(requests0, schema.requests, d.requests);
    }
  }

  /** Running database `i` after a loop that has run `i` databases without throwing. */
  lemma ExtendDatabaseLoop(databases: seq<Database>, env: Environment, outcomes: seq<Outcome>, k: nat, i: nat,
                           lines0: seq<string>, requests0: seq<Request>)
    requires i < |databases|
    requires DatabaseLoop(databases, env, outcomes, k, i).completed
    ensures var l := DatabaseLoop(databases, env, outcomes, k, i);
            var step := DatabaseStep(databases[i], env, outcomes, k + |l.requests|);
            var next := DatabaseLoop(databases, env, outcomes, k, i + 1);
            (lines0 + Render(l.lines)) + Render(step.lines) == lines0 + Render(next.lines) &&
            (requests0 + l.requests) + step.requests == requests0 + next.requests &&
            next.completed == step.completed
  {
    var l := DatabaseLoop(databases, env, outcomes, k, i);
    var step := DatabaseStep(databases[i], env, outcomes, k + |l.requests|);
    var next := DatabaseLoop(databases, env, outcomes, k, i + 1);
    assert next == LoopThrough(databases, env, outcomes, k, i) == Then(l, StepAt(databases, env, outcomes, k, i));
    assert StepAt(databases, env, outcomes, k, i) == step;
    assert next.lines == l.lines + step.lines && next.requests == l.requests + step.requests;
    RenderAppend(l.lines, step.lines);
    AppendAssoc(lines0, Render(l.lines), Render(step.lines));
    AppendAssoc(requests0, l.requests, step.requests);
  }

  /** A database that throws is the last one the loop attempts. */
  lemma DatabaseLoopStopsAfterStep(databases: seq<Database>, env: Environment, outcomes: seq<Outcome>, k: nat, i: nat)
    requires i < |databases|
    requires !DatabaseStep(databases[i], env, outcomes, k + |DatabaseLoop(databases, env, outcomes, k, i).requests|).completed
    ensures DatabaseLoop(databases, env, outcomes, k, |databases|) == DatabaseLoop(databases, env, outcomes, k, i + 1)
  {
    assert !StepAt(databases, env, outcomes, k, i).completed;
    DatabaseLoopStopsAfterFailure(databases, env, outcomes, k, i + 1, |databases|);
  }

  /** `ExecuteDatabaseCopy` once the list is retrieved, with its log and requests grouped as the method writes them. */
  lemma DatabaseCopyAfterList(databases: seq<Database>, env: Environment, outcomes: seq<Outcome>, k: nat,
                              lines0: seq<string>, requests0: seq<Request>)
    requires ListTrace(env.connectionString, outcomes, k).completed
    ensures var list := ListTrace(env.connectionString, outcomes, k);
            var user := UserDatabases(databases);
            var loop := DatabaseLoop(user, env, outcomes, k + 1, |user|);
            var t := DatabaseCopy(databases, env, outcomes, k);
            (lines0 + Render(list.lines)) + Render(loop.lines) == lines0 + Render(t.lines) &&
            (requests0 + list.requests) + loop.requests == requests0 + t.requests &&
            t.completed == loop.completed
  {
    var list := ListTrace(env.connectionString, outcomes, k);
    var user := UserDatabases(databases);
    var loop := DatabaseLoop(user, env, outcomes, k + 1, |user|);
    RenderAppend(list.lines, loop.lines);
    AppendAssoc(lines0, Render(list.lines), Render(loop.lines));
    AppendAssoc(requests0, list.requests, loop.requests);
  }

  /** Once a database has thrown, no later database is attempted. */
  lemma {:induction false} DatabaseLoopStopsAfterFailure(databases: seq<Database>, env: Environment,
                                                         outcomes: seq<Outcome>, k: nat, n: nat, m: nat)
    requires n <= m <= |databases|
    requires !DatabaseLoop(databases, env, outcomes, k, n).completed
    ensures DatabaseLoop(databases, env, outcomes, k, m) == DatabaseLoop(databases, env, outcomes, k, n)
    decreases m
  {
    if m > n {
      DatabaseLoopStopsAfterFailure(databases, env, outcomes, k, n, m - 1);
    }
  }

  /** Every database the loop creates is the clone of one of the databases it was given. */
  lemma {:induction false} LoopCreatesOnlyClones(databases: seq<Database>, env: Environment,
                                                 outcomes: seq<Outcome>, k: nat, n: nat)
    requires n <= |databases|
    ensures forall r :: r in DatabaseLoop(databases, env, outcomes, k, n).requests && r.CreateDatabase? ==>
              exists i :: 0 <= i < n && r == CreateDatabase(CloneName(databases[i], env), databases[i].collation)
    decreases n
  {
    if n > 0 {
      LoopCreatesOnlyClones(databases, env, outcomes, k, n - 1);
      var before := DatabaseLoop(databases, env, outcomes, k, n - 1);
      StepCreatesOnlyItsClone(databases[n - 1], env, outcomes, k + |before.requests|);
      assert StepAt(databases, env, outcomes, k, n - 1) == DatabaseStep(databases[n - 1], env, outcomes, k + |before.requests|);
    }
  }

  /** A loop that ends normally created the clone of every database it was given. */
  lemma {:induction false} CompletedLoopCreatesEveryClone(databases: seq<Database>, env: Environment,
                                                          outcomes: seq<Outcome>, k: nat, n: nat)
    requires n <= |databases|
    requires DatabaseLoop(databases, env, outcomes, k, n).completed
    ensures forall i :: 0 <= i < n ==>
              CreateDatabase(CloneName(databases[i], env), databases[i].collation) in DatabaseLoop(databases, env, outcomes, k, n).requests
    decreases n
  {
    if n > 0 {
      var before := DatabaseLoop(databases, env, outcomes, k, n - 1);
      var step := StepAt(databases, env, outcomes, k, n - 1);
      var t := DatabaseLoop(databases, env, outcomes, k, n);
      CompletedLoopCreatesEveryClone(databases, env, outcomes, k, n - 1);
      StepScriptsThenCreates(databases[n - 1], env, outcomes, k + |before.requests|);
      assert t.requests == before.requests + step.requests;
      forall i | 0 <= i < n
        ensures CreateDatabase(CloneName(databases[i], env), databases[i].collation) in t.requests
      {
        if i == n - 1 {
          assert step.requests[1] in t.requests;
        }
      }
    }
  }

  /** `ExecuteDatabaseCopy` never creates a database other than the clone of a user database. */
  lemma OnlyUserDatabasesCloned(databases: seq<Database>, env: Environment, outcomes: seq<Outcome>, k: nat)
    ensures forall r :: r in DatabaseCopy(databases, env, outcomes, k).requests && r.CreateDatabase? ==>
              exists d :: d in databases && !d.isSystemObject && r == CreateDatabase(CloneName(d, env), d.collation)
  {
    var user := UserDatabases(databases);
    LoopCreatesOnlyClones(user, env, outcomes, k + 1, |user|);
    forall i | 0 <= i < |user|
      ensures user[i] in databases && !user[i].isSystemObject
    {
      UserDatabasesMembership(databases, user[i]);
    }
  }

  /** An `ExecuteDatabaseCopy` that ends normally created the clone of every user database. */
  lemma CompletedCopyClonesEveryUserDatabase(databases: seq<Database>, env: Environment, outcomes: seq<Outcome>, k: nat)
    requires DatabaseCopy(databases, env, outcomes, k).completed
    ensures forall d :: d in databases && !d.isSystemObject ==>
              CreateDatabase(CloneName(d, env), d.collation) in DatabaseCopy(databases, env, outcomes, k).requests
  {
    var user := UserDatabases(databases);
    CompletedLoopCreatesEveryClone(user, env, outcomes, k + 1, |user|);
    forall d | d in databases && !d.isSystemObject
      ensures CreateDatabase(CloneName(d, env), d.collation) in DatabaseCopy(databases, env, outcomes, k).requests
    {
      UserDatabasesMembership(databases, d);
      var i :| 0 <= i < |user| && user[i] == d;
    }
  }

  // ---------------------------------------------------------------------
  // Lemmas about validation and initialisation
  // ---------------------------------------------------------------------

  /** A non-empty configured suffix is never stored: the field keeps its value. */
  lemma ConfiguredSuffixNeverStored(available: bool, configured: string, field: Option<string>, now: string,
                                    wordChar: char -> bool)
    requires configured != ""
    ensures SuffixAfterValidation(available, configured, field, now, wordChar) == field
  {
  }

  /** With an empty configured suffix and a reachable server the field holds a generated `_...` suffix. */
  lemma GeneratedSuffixStored(configured: string, field: Option<string>, now: string, wordChar: char -> bool)
    requires configured == ""
    ensures var r := SuffixAfterValidation(true, configured, field, now, wordChar);
            r.Some? && r.value == "_" + Settings.KeepSuffixChars(wordChar, now) && r.value[0] == '_'
  {
  }

  /**
   * A consequence of the suffix rule: a manager whose suffix field starts
   * absent and that is given a non-empty configured suffix names every
   * clone exactly like its source database.
   */
  lemma ConfiguredSuffixClonesUnderSourceName(available: bool, configured: string, now: string,
                                              wordChar: char -> bool, env: Environment, database: Database)
    requires configured != ""
    requires env.suffix == SuffixAfterValidation(available, configured, None, now, wordChar).GetOr("")
    ensures CloneName(database, env) == database.name
  {
    ConfiguredSuffixNeverStored(available, configured, None, now, wordChar);
    assert database.name + "" == database.name;
  }

  /**
   * The copy runs exactly when the connection check succeeds: the
   * database list is requested then and only then, and a failed check
   * logs exactly the two abort lines after the one check request.
   */
  lemma CopyRunsIffAvailable(connectionString: string, databases: seq<Database>, env: Environment,
                             outcomes: seq<Outcome>, k: nat)
    requires OutcomeAt(outcomes, k) != OtherFailure
    ensures var t := InitializeTrace(connectionString, databases, env, outcomes, k);
            (EnumerateDatabases in t.requests <==> ConnectionAvailable(outcomes, k)) &&
            (!ConnectionAvailable(outcomes, k) ==>
               t.lines == [CannotInitialize(connectionString), ProcessAborted] &&
               t.requests == [OpenConnection(connectionString)])
  {
    var t := InitializeTrace(connectionString, databases, env, outcomes, k);
    if ConnectionAvailable(outcomes, k) {
      assert t.requests[1] == EnumerateDatabases;
    }
  }

  // ---------------------------------------------------------------------
  // The schema manager
  // ---------------------------------------------------------------------


  class DatabaseSchemaManager {
    const log: LogFileManager
    const sql: SqlServer
    var applicationSettingsHelper: Settings.ApplicationSettingsHelper
    var sqlConnectionIsAvailable: bool
    /** The connection string the `Server` object was created on, once it is created. */
    var server: Option<string>
    var connectionString: Option<string>
    var cloneDatabaseNameSuffix: Option<string>

    constructor (applicationSettingsHelper: Settings.ApplicationSettingsHelper, log: LogFileManager, sql: SqlServer)
      ensures this.applicationSettingsHelper == applicationSettingsHelper && this.log == log && this.sql == sql
      ensures !sqlConnectionIsAvailable && server == None
      ensures connectionString == None && cloneDatabaseNameSuffix == None
    {
      this.applicationSettingsHelper := applicationSettingsHelper;
      this.log := log;
      this.sql := sql;
      sqlConnectionIsAvailable := false;
      server := None;
      connectionString := None;
      cloneDatabaseNameSuffix := None;
    }

    /** What the per-database phase reads from this manager and from the server. */
    ghost function Env(): Environment
      reads this
    {
      Environment(connectionString.GetOr(""), cloneDatabaseNameSuffix.GetOr(""), applicationSettingsHelper.config,
                  sql.scripts, sql.tableCounts)
    }

    /** Writes the text of `m`, after the messages `written` that followed the lines `lines0`. */
    method WriteMessage(m: Message, ghost lines0: seq<string>, ghost written: seq<Message>)
      requires log.lines == lines0 + Render(written)
      modifies log
      ensures log.lines == lines0 + Render(written + [m])
    {
      log.WriteToLogFile(Text(m));
      RenderSnoc(written, m);
      AppendAssoc(lines0, Render(written), [Text(m)]);
    }

    /**
     * Starts the copy with the configured connection string and suffix;
     * `now` is the clock reading and `wordChar` the class `\w` of the
     * regular-expression engine, both read when a suffix is generated.
     */
    method Execute(now: string, wordChar: char -> bool) returns (completed: bool)
      modifies this, log, sql
      ensures var k := |old(sql.requests)|;
              var t := InitializeTrace(applicationSettingsHelper.connectionString, sql.databases, Env(), sql.outcomes, k);
              log.lines == old(log.lines) + Render(t.lines) &&
              sql.requests == old(sql.requests) + t.requests &&
              completed == t.completed
      ensures var available := ConnectionAvailable(sql.outcomes, |old(sql.requests)|);
              connectionString == (if available then Some(applicationSettingsHelper.connectionString) else old(connectionString)) &&
              cloneDatabaseNameSuffix ==
                SuffixAfterValidation(available, applicationSettingsHelper.cloneDatabaseNameSuffix,
                                      old(cloneDatabaseNameSuffix), now, wordChar) &&
              server == (if available then Some(applicationSettingsHelper.connectionString) else old(server))
      ensures applicationSettingsHelper == old(applicationSettingsHelper)
    {
      completed := InitializeSqlServerConnection(applicationSettingsHelper.connectionString,
                                                 applicationSettingsHelper.cloneDatabaseNameSuffix, now, wordChar);
    }

    /** Lists the user databases, then copies each one into its clone. */
    method ExecuteDatabaseCopy() returns (completed: bool)
      requires server.Some?
      modifies log, sql
      ensures var t := DatabaseCopy(sql.databases, Env(), sql.outcomes, |old(sql.requests)|);
              log.lines == old(log.lines) + Render(t.lines) &&
              sql.requests == old(sql.requests) + t.requests &&
              completed == t.completed
    {
      ghost var k := |sql.requests|;
      var listed, userDatabases := GetUserDatabases();
      if !listed {
        return false;
      }
      var dbtMng := new TableCopy.DatabaseTableManager(log, sql, connectionString.GetOr(""), applicationSettingsHelper);
      completed := CopyDatabases(dbtMng, userDatabases);
      DatabaseCopyAfterList(sql.databases, Env(), sql.outcomes, k, old(log.lines), old(sql.requests));
    }

    /** The loop of `ExecuteDatabaseCopy`: the databases in order, until one throws. */
    method CopyDatabases(dbtMng: TableCopy.DatabaseTableManager, databases: seq<Database>) returns (completed: bool)
      requires dbtMng.log == log && dbtMng.sql == sql
      requires dbtMng.connectionString == connectionString.GetOr("")
      requires dbtMng.applicationSettingsHelper == applicationSettingsHelper
      modifies log, sql, dbtMng
      ensures var l := DatabaseLoop(databases, Env(), sql.outcomes, |old(sql.requests)|, |databases|);
              log.lines == old(log.lines) + Render(l.lines) &&
              sql.requests == old(sql.requests) + l.requests &&
              completed == l.completed
    {
      ghost var k := |sql.requests|;
      for i := 0 to |databases|
        invariant var l := DatabaseLoop(databases, Env(), sql.outcomes, k, i);
                  l.completed && log.lines == old(log.lines) + Render(l.lines) && sql.requests == old(sql.requests) + l.requests
      {
        var copied := CopyNextDatabase(dbtMng, databases, i, k, old(log.lines), old(sql.requests));
        if !copied {
          return false;
        }
      }
      completed := true;
    }

    /** Database `i` of the copy loop, once the databases before it are copied. */
    method CopyNextDatabase(dbtMng: TableCopy.DatabaseTableManager, databases: seq<Database>, i: nat,
                            ghost k: nat, ghost lines0: seq<string>, ghost requests0: seq<Request>)
      returns (completed: bool)
      requires i < |databases|
      requires dbtMng.log == log && dbtMng.sql == sql
      requires dbtMng.connectionString == connectionString.GetOr("")
      requires dbtMng.applicationSettingsHelper == applicationSettingsHelper
      requires |requests0| == k
      requires var l := DatabaseLoop(databases, Env(), sql.outcomes, k, i);
               l.completed && log.lines == lines0 + Render(l.lines) && sql.requests == requests0 + l.requests
      modifies log, sql, dbtMng
      ensures var l := DatabaseLoop(databases, Env(), sql.outcomes, k, i + 1);
              log.lines == lines0 + Render(l.lines) && sql.requests == requests0 + l.requests &&
              completed == l.completed
      ensures !completed ==> DatabaseLoop(databases, Env(), sql.outcomes, k, |databases|) ==
                             DatabaseLoop(databases, Env(), sql.outcomes, k, i + 1)
    {
      ghost var env := Env();
      ExtendDatabaseLoop(databases, env, sql.outcomes, k, i, lines0, requests0);
      assert |sql.requests| == k + |DatabaseLoop(databases, env, sql.outcomes, k, i).requests|;
      completed := CopyDatabase(dbtMng, databases[i], env, |sql.requests|);
      assert Env() == env;
      if !completed {
        DatabaseLoopStopsAfterStep(databases, env, sql.outcomes, k, i);
      }
    }

    /** One iteration of the copy loop: script the schema, then make the clone. */
    method CopyDatabase(dbtMng: TableCopy.DatabaseTableManager, sourceDatabase: Database,
                        ghost env: Environment, ghost k: nat) returns (completed: bool)
      requires dbtMng.log == log && dbtMng.sql == sql
      requires dbtMng.connectionString == connectionString.GetOr("")
      requires dbtMng.applicationSettingsHelper == applicationSettingsHelper
      requires env == Env() && k == |sql.requests|
      modifies log, sql, dbtMng
      ensures var s := DatabaseStep(sourceDatabase, env, sql.outcomes, k);
              log.lines == old(log.lines) + Render(s.lines) &&
              sql.requests == old(sql.requests) + s.requests &&
              completed == s.completed
    {
      var cloneName := sourceDatabase.name + cloneDatabaseNameSuffix.GetOr("");
      var generated, script := GenerateDatabaseSchema(sourceDatabase, cloneName);
      if !generated {
        return false;
      }
      DatabaseStepAfterGeneration(sourceDatabase, env, sql.outcomes, k, old(log.lines), old(sql.requests));
      completed := CopyToClone(dbtMng, sourceDatabase, cloneName, script, env, k + 1);
    }

    /** Creates the clone from the script, then copies the data when the clone has tables. */
    method CopyToClone(dbtMng: TableCopy.DatabaseTableManager, sourceDatabase: Database, cloneName: string,
                       script: seq<string>, ghost env: Environment, ghost k: nat) returns (completed: bool)
      requires dbtMng.log == log && dbtMng.sql == sql
      requires dbtMng.connectionString == connectionString.GetOr("")
      requires dbtMng.applicationSettingsHelper == applicationSettingsHelper
      requires env == Env() && k == |sql.requests|
      requires cloneName == CloneName(sourceDatabase, env) && script == env.scripts(sourceDatabase.name, cloneName)
      modifies log, sql, dbtMng
      ensures var c := CloneTrace(sourceDatabase, env, sql.outcomes, k);
              log.lines == old(log.lines) + Render(c.lines) &&
              sql.requests == old(sql.requests) + c.requests &&
              completed == c.completed
    {
      var copied := CopySchema(cloneName, sourceDatabase.collation, script);
      if !copied || sql.tableCounts(cloneName) == 0 {
        CloneTraceWithoutData(sourceDatabase, env, sql.outcomes, k);
        return copied;
      }
      CloneTraceAfterSchema(sourceDatabase, env, sql.outcomes, k, old(log.lines), old(sql.requests));
      completed := CopyData(dbtMng, sourceDatabase, cloneName);
    }

    /** Hands the source database to the table manager, which copies the data into the clone. */
    method CopyData(dbtMng: TableCopy.DatabaseTableManager, sourceDatabase: Database, cloneName: string)
      returns (completed: bool)
      requires dbtMng.log == log && dbtMng.sql == sql
      requires dbtMng.connectionString == connectionString.GetOr("")
      requires dbtMng.applicationSettingsHelper == applicationSettingsHelper
      requires cloneName == CloneName(sourceDatabase, Env())
      modifies log, sql, dbtMng
      ensures var d := DataTrace(sourceDatabase, Env(), sql.outcomes, |old(sql.requests)|);
              log.lines == old(log.lines) + Render(d.lines) &&
              sql.requests == old(sql.requests) + d.requests &&
              completed == d.completed
      ensures dbtMng.sourceDatabase == Some(sourceDatabase)
    {
      ghost var k := |sql.requests|;
      dbtMng.sourceDatabase := Some(sourceDatabase);
      completed := dbtMng.CopyDataFromTableToTable(cloneName);
      RenderFromTableManager(TableCopy.DataCopy(sourceDatabase, dbtMng.connectionString,
        Settings.GetUserDatabaseConnectionString(applicationSettingsHelper.config, cloneName), sql.outcomes, k).lines);
    }

    /** Reports whether the server is available: `SqlException` means no, any other exception escapes. */
    method CheckConnectionString(connectionString: string) returns (available: bool, completed: bool)
      modifies sql
      ensures sql.requests == old(sql.requests) + [OpenConnection(connectionString)]
      ensures completed == (OutcomeAt(sql.outcomes, |old(sql.requests)|) != OtherFailure)
      ensures available == ConnectionAvailable(sql.outcomes, |old(sql.requests)|)
    {
      var o := sql.Send(OpenConnection(connectionString));
      available := o == Ok;
      completed := o != OtherFailure;
    }

    /**
     * Checks the connection; when it is available, stores the connection
     * string and, when the given suffix is empty, a newly generated one.
     */
    method ValidateConnectionSettings(connectionString: string, cloneDatabaseNameSuffix: string, now: string,
                                      wordChar: char -> bool)
      returns (completed: bool)
      modifies this, sql
      ensures var k := |old(sql.requests)|;
              var available := ConnectionAvailable(sql.outcomes, k);
              sql.requests == old(sql.requests) + [OpenConnection(connectionString)] &&
              completed == (OutcomeAt(sql.outcomes, k) != OtherFailure) &&
              sqlConnectionIsAvailable == (if completed then available else old(sqlConnectionIsAvailable)) &&
              this.connectionString == (if available then Some(connectionString) else old(this.connectionString)) &&
              this.cloneDatabaseNameSuffix ==
                SuffixAfterValidation(available, cloneDatabaseNameSuffix, old(this.cloneDatabaseNameSuffix), now, wordChar)
      ensures applicationSettingsHelper == old(applicationSettingsHelper) && server == old(server)
    {
      var available, checked := CheckConnectionString(connectionString);
      if !checked {
        return false;
      }
      sqlConnectionIsAvailable := available;
      if sqlConnectionIsAvailable {
        this.connectionString := Some(connectionString);
        if cloneDatabaseNameSuffix == "" {
          this.cloneDatabaseNameSuffix := Some(Settings.GetNewCloneDatabaseNameSuffix(wordChar, now));
        }
      }
      completed := true;
    }

    /** Validates the settings, then either runs the copy or logs that it cannot start. */
    method InitializeSqlServerConnection(connectionString: string, cloneDatabaseNameSuffix: string, now: string,
                                         wordChar: char -> bool)
      returns (completed: bool)
      modifies this, log, sql
      ensures var k := |old(sql.requests)|;
              var t := InitializeTrace(connectionString, sql.databases, Env(), sql.outcomes, k);
              log.lines == old(log.lines) + Render(t.lines) &&
              sql.requests == old(sql.requests) + t.requests &&
              completed == t.completed
      ensures var k := |old(sql.requests)|;
              var available := ConnectionAvailable(sql.outcomes, k);
              this.connectionString == (if available then Some(connectionString) else old(this.connectionString)) &&
              this.cloneDatabaseNameSuffix ==
                SuffixAfterValidation(available, cloneDatabaseNameSuffix, old(this.cloneDatabaseNameSuffix), now, wordChar) &&
              server == (if available then Some(connectionString) else old(server))
      ensures applicationSettingsHelper == old(applicationSettingsHelper)
    {
      var validated := ValidateConnectionSettings(connectionString, cloneDatabaseNameSuffix, now, wordChar);
      if !validated {
        return false;
      }
      if sqlConnectionIsAvailable {
        server := Some(connectionString);
        completed := ExecuteDatabaseCopy();
      } else {
        WriteMessage(CannotInitialize(connectionString), old(log.lines), []);
        WriteMessage(ProcessAborted, old(log.lines), [CannotInitialize(connectionString)]);
        completed := true;
      }
    }

    /** The user databases of the server, in enumeration order, between three log lines. */
    method GetUserDatabases() returns (completed: bool, userDatabases: seq<Database>)
      requires server.Some?
      modifies log, sql
      ensures var t := ListTrace(connectionString.GetOr(""), sql.outcomes, |old(sql.requests)|);
              log.lines == old(log.lines) + Render(t.lines) &&
              sql.requests == old(sql.requests) + t.requests &&
              completed == t.completed
      ensures completed ==> userDatabases == UserDatabases(sql.databases)
    {
      var using := UsingConnection(connectionString.GetOr(""));
      WriteMessage(using, old(log.lines), []);
      WriteMessage(GettingDatabases, old(log.lines), [using]);
      var o := sql.Send(EnumerateDatabases);
      if o != Ok {
        return false, [];
      }
      userDatabases := [];
      for i := 0 to |sql.databases|
        invariant userDatabases == UserDatabases(sql.databases[..i])
      {
        assert sql.databases[..i + 1][..i] == sql.databases[..i];
        if !sql.databases[i].isSystemObject {
          userDatabases := userDatabases + [sql.databases[i]];
        }
      }
      assert sql.databases[..|sql.databases|] == sql.databases;
      WriteMessage(DatabasesRetrieved, old(log.lines), [using, GettingDatabases]);
      completed := true;
    }

    /** Scripts the schema of `userDatabase` for the clone `cloneName`. */
    method GenerateDatabaseSchema(userDatabase: Database, cloneName: string) returns (completed: bool, script: seq<string>)
      modifies log, sql
      ensures var t := GenerationTrace(userDatabase.name, cloneName, sql.outcomes, |old(sql.requests)|);
              log.lines == old(log.lines) + Render(t.lines) &&
              sql.requests == old(sql.requests) + t.requests &&
              completed == t.completed
      ensures completed ==> script == sql.scripts(userDatabase.name, cloneName)
    {
      WriteMessage(GenerationStarted(userDatabase.name), old(log.lines), []);
      var o := sql.Send(ScriptTransfer(userDatabase.name, cloneName));
      if o != Ok {
        return false, [];
      }
      script := sql.scripts(userDatabase.name, cloneName);
      WriteMessage(SchemaGenerated(userDatabase.name), old(log.lines), [GenerationStarted(userDatabase.name)]);
      completed := true;
    }

    /** Creates the clone and runs the schema script on it. */
    method CopySchema(cloneName: string, collation: string, script: seq<string>) returns (completed: bool)
      modifies log, sql
      ensures var t := SchemaTrace(cloneName, collation, script, connectionString.GetOr(""),
                                   sql.outcomes, |old(sql.requests)|);
              log.lines == old(log.lines) + Render(t.lines) &&
              sql.requests == old(sql.requests) + t.requests &&
              completed == t.completed
    {
      var o := sql.Send(CreateDatabase(cloneName, collation));
      if o != Ok {
        return false;
      }
      WriteMessage(CloneCreated(cloneName), old(log.lines), []);
      WriteMessage(SchemaCopyStarted(cloneName), old(log.lines), [CloneCreated(cloneName)]);
      ghost var announced := [CloneCreated(cloneName), SchemaCopyStarted(cloneName)];
      o := sql.Send(OpenConnection(connectionString.GetOr("")));
      if o != Ok {
        return false;
      }
      var use := UseClone(cloneName);
      o := sql.Send(ExecuteNonQuery(use));
      if o != Ok {
        return false;
      }
      WriteMessage(Executed(use), old(log.lines), announced);
      ghost var head := announced + [Executed(use)];
      ghost var requests1 := sql.requests;
      completed := RunScript(script);
      ghost var run := ScriptLoop(script, sql.outcomes, |requests1|, |script|);
      RenderAppend(head, run.lines);
      AppendAssoc(old(log.lines), Render(head), Render(run.lines));
      if completed {
        WriteMessage(SchemaCopied(cloneName), old(log.lines), head + run.lines);
      }
    }

    /** The loop of `CopySchema`: each line is executed, then logged. */
    method RunScript(script: seq<string>) returns (completed: bool)
      modifies log, sql
      ensures var l := ScriptLoop(script, sql.outcomes, |old(sql.requests)|, |script|);
              log.lines == old(log.lines) + Render(l.lines) &&
              sql.requests == old(sql.requests) + l.requests &&
              completed == l.completed
    {
      ghost var k := |sql.requests|;
      for i := 0 to |script|
        invariant var l := ScriptLoop(script, sql.outcomes, k, i);
                  l.completed && log.lines == old(log.lines) + Render(l.lines) &&
                  sql.requests == old(sql.requests) + l.requests
      {
        ExtendScriptLoop(script, sql.outcomes, k, i, old(sql.requests));
        var o := sql.Send(ExecuteNonQuery(script[i]));
        if o != Ok {
          ScriptLoopStopsAfterFailure(script, sql.outcomes, k, i + 1, |script|);
          return false;
        }
        WriteMessage(Executed(script[i]), old(log.lines), ScriptLoop(script, sql.outcomes, k, i).lines);
      }
      completed := true;
    }
  }
}
