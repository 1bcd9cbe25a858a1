/**
 * The objects the program receives from SQL Server Management Objects and
 * SqlClient (databases, tables, columns), the log file, and the server
 * itself seen as an outcome oracle.
 *
 * Every call that goes over the network (opening a connection, executing a
 * command or a reader, a bulk write, creating a database, scripting a
 * transfer, enumerating the databases) is a `Request`. The server records
 * the requests in the order they are made, and the outcome of the n-th
 * request is the n-th entry of a script of outcomes fixed when the server
 * is created; requests past the end of the script succeed. Any finite
 * pattern of successes and failures is one choice of that script.
 */
module Server {

  datatype Column = Column(name: string, computed: bool)

  datatype Table = Table(schema: string, name: string, columns: seq<Column>)

  datatype Database = Database(
    name: string,
    collation: string,
    isSystemObject: bool,
    tables: seq<Table>)

  /** How a network call ends: normally, with a `SqlException`, or with any other exception. */
  datatype Outcome = Ok | SqlFailure | OtherFailure

  /** The outcome of request number `n` under the script `outcomes`. */
  function OutcomeAt(outcomes: seq<Outcome>, n: nat): (o: Outcome)
    ensures n >= |outcomes| ==> o == Ok
  {
    if n < |outcomes| then outcomes[n] else Ok
  }

  datatype Request =
    | OpenConnection(connectionString: string)
    | ExecuteNonQuery(commandText: string)
    | ExecuteReader(commandText: string)
    | WriteToServer(connectionString: string, destinationTableName: string,
                    columnMappings: seq<(string, string)>)
    | CreateDatabase(name: string, collation: string)
    | ScriptTransfer(sourceDatabase: string, destinationDatabase: string)
    | EnumerateDatabases

  /**
   * What a piece of the program leaves behind: the log entries it writes
   * (of type `L`), the requests it makes, and whether it ends normally
   * (false: an exception escaped from it).
   */
  datatype Trace<L> = Trace(lines: seq<L>, requests: seq<Request>, completed: bool)

  /** The trace of doing nothing. */
  function Skip<L>(): Trace<L>
  {
    Trace([], [], true)
  }

  /** `first` followed by `next`; `next` never starts when `first` threw. */
  function Then<L>(first: Trace<L>, next: Trace<L>): (t: Trace<L>)
    ensures !first.completed ==> t == first
    ensures first.completed ==>
              t.lines == first.lines + next.lines &&
              t.requests == first.requests + next.requests &&
              t.completed == next.completed
  {
    if first.completed
    then Trace(first.lines + next.lines, first.requests + next.requests, next.completed)
    else first
  }

  /** Concatenation is associative (stated for use at the points where a proof regroups a log). */
  lemma AppendAssoc<T>(a: seq<T>, b: seq<T>, c: seq<T>)
    ensures (a + b) + c == a + (b + c)
  {
    forall i | 0 <= i < |a| + |b| + |c|
      ensures ((a + b) + c)[i] == (a + (b + c))[i]
    {
      if i < |a| + |b| {
        assert ((a + b) + c)[i] == (a + b)[i];
      }
    }
  }

  /** The log file, as the sequence of lines written to it. */
  class LogFileManager {
    var lines: seq<string>

    constructor ()
      ensures lines == []
    {
      lines := [];
    }

    method WriteToLogFile(line: string)
      modifies this
      ensures lines == old(lines) + [line]
    {
      lines := lines + [line];
    }
  }

  /** The SQL Server instance and the client library, as seen by the program. */
  class SqlServer {
    /** The script of outcomes: entry n is the outcome of the n-th request. */
    const outcomes: seq<Outcome>
    /** The databases `Server.Databases` enumerates, in its order. */
    const databases: seq<Database>
    /** What `Transfer.ScriptTransfer()` returns for a source and a destination database. */
    const scripts: (string, string) -> seq<string>
    /** `Database.Tables.Count` of a database, once its schema has been applied. */
    const tableCounts: string -> nat

    /** The requests made so far, in order. */
    var requests: seq<Request>
    /** The data readers currently open. */
    var openReaders: nat

    constructor (outcomes: seq<Outcome>, databases: seq<Database>,
                 scripts: (string, string) -> seq<string>, tableCounts: string -> nat)
      ensures this.outcomes == outcomes && this.databases == databases
      ensures this.scripts == scripts && this.tableCounts == tableCounts
      ensures requests == [] && openReaders == 0
    {
      this.outcomes := outcomes;
      this.databases := databases;
      this.scripts := scripts;
      this.tableCounts := tableCounts;
      requests := [];
      openReaders := 0;
    }

    /** Makes one request. */
    method Send(r: Request) returns (o: Outcome)
      modifies this
      ensures requests == old(requests) + [r]
      ensures o == OutcomeAt(outcomes, |old(requests)|)
      ensures openReaders == old(openReaders)
    {
      o := OutcomeAt(outcomes, |requests|);
      requests := requests + [r];
    }

    /** `SqlCommand.ExecuteReader`: on success a data reader is open. */
    method OpenReader(commandText: string) returns (o: Outcome)
      modifies this
      ensures requests == old(requests) + [ExecuteReader(commandText)]
      ensures o == OutcomeAt(outcomes, |old(requests)|)
      ensures openReaders == old(openReaders) + (if o == Ok then 1 else 0)
    {
      o := OutcomeAt(outcomes, |requests|);
      requests := requests + [ExecuteReader(commandText)];
      if o == Ok {
        openReaders := openReaders + 1;
      }
    }

    /** `SqlDataReader.Close`. */
    method CloseReader()
      requires openReaders > 0
      modifies this
      ensures openReaders == old(openReaders) - 1
      ensures requests == old(requests)
    {
      openReaders := openReaders - 1;
    }
  }
}
