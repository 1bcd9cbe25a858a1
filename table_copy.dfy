/**
 * The table manager: for one source database, builds per table the column
 * projection, the SELECT statement, the destination name and the column
 * mappings, and bulk-copies every table into the clone database, catching a
 * failed bulk write and carrying on with the next table.
 */
module TableCopy {
  import opened Wrappers
  import opened Server
  import Settings

  // ---------------------------------------------------------------------
  // The column projection, as the indexed loop builds it
  // ---------------------------------------------------------------------

  /** `[name]`, a bracket-quoted identifier. */
  function Bracket(name: string): string
  {
    "[" + name + "]"
  }

  /**
   * What the first `n` iterations of the indexed loop append: nothing for a
   * computed column, otherwise the column in brackets, followed by a comma
   * unless it sits at the last index of the column list (whether or not
   * later columns are computed).
   */
  function ColumnPieces(columns: seq<Column>, n: nat): string
    requires n <= |columns|
  {
    if n == 0 then ""
    else if columns[n - 1].computed then ColumnPieces(columns, n - 1)
    else if n == |columns| then ColumnPieces(columns, n - 1) + Bracket(columns[n - 1].name)
    else ColumnPieces(columns, n - 1) + Bracket(columns[n - 1].name) + ","
  }

  /** The projection that `GetListOfColumnsOfTable` returns. */
  function ColumnList(columns: seq<Column>): string
  {
    ColumnPieces(columns, |columns|)
  }

  // ---------------------------------------------------------------------
  // An independent description: the insertable columns, comma-joined
  // ---------------------------------------------------------------------

  /** The non-computed columns among the first `n`, in table order. */
  function InsertablePrefix(columns: seq<Column>, n: nat): (r: seq<Column>)
    requires n <= |columns|
    ensures |r| <= n
    ensures forall i :: 0 <= i < |r| ==> !r[i].computed
  {
    if n == 0 then []
    else if columns[n - 1].computed then InsertablePrefix(columns, n - 1)
    else InsertablePrefix(columns, n - 1) + [columns[n - 1]]
  }

  /** The non-computed columns, in table order. */
  function Insertable(columns: seq<Column>): seq<Column>
  {
    InsertablePrefix(columns, |columns|)
  }

  /** The bracket-quoted names of `cs`, separated by commas. */
  function Projection(cs: seq<Column>): string
  {
    if |cs| == 0 then ""
    else if |cs| == 1 then Bracket(cs[0].name)
    else Projection(cs[..|cs| - 1]) + "," + Bracket(cs[|cs| - 1].name)
  }

  /** The mapping of a column to the destination column of the same name. */
  function Mapping(c: Column): (string, string)
  {
    (c.name, c.name)
  }

  /** One mapping per column of `cs`, in order. */
  function Mappings(cs: seq<Column>): (r: seq<(string, string)>)
    ensures |r| == |cs|
  {
    if cs == [] then [] else Mappings(cs[..|cs| - 1]) + [Mapping(cs[|cs| - 1])]
  }

  /** What the first `n` iterations of the `ColumnMappings.Add` loop add: a mapping per non-computed column. */
  function MappingPieces(columns: seq<Column>, n: nat): seq<(string, string)>
    requires n <= |columns|
  {
    if n == 0 then []
    else if columns[n - 1].computed then MappingPieces(columns, n - 1)
    else MappingPieces(columns, n - 1) + [Mapping(columns[n - 1])]
  }

  /** The bulk-copy column mappings that `AddColumnMappings` builds. */
  function MappingsOf(columns: seq<Column>): seq<(string, string)>
  {
    MappingPieces(columns, |columns|)
  }

  /** `SELECT <projection> FROM [db].[schema].[table]`. */
  function SelectStatement(databaseName: string, table: Table): string
  {
    "SELECT " + ColumnList(table.columns) + " FROM [" + databaseName + "].[" + table.schema + "].[" + table.name + "]"
  }

  /** `[schema].[table]`, the bulk-copy destination. */
  function DestinationTableName(table: Table): string
  {
    "[" + table.schema + "].[" + table.name + "]"
  }

  function SuccessLine(destinationTableName: string): string
  {
    "Bulk copy successful for table " + destinationTableName
  }

  /** The command that selects the source database. */
  function UseLine(databaseName: string): string
  {
    "USE [" + databaseName + "]"
  }

  function StartLine(tableCount: nat): string
  {
    "Starting copying data from " + NatToString(tableCount) + " source tables.."
  }

  const FinalLine: string := "Successfully copied data" + " from source tables to the new tables."

  /** Decimal digits of `n`, most significant first, as `Int32.ToString` writes a count. */
  function NatToString(n: nat): (r: string)
    ensures |r| > 0
    decreases n
  {
    if n < 10 then [DigitChar(n)]
    else
      var qr := DivMod10(n);
      NatToString(qr.0) + [DigitChar(qr.1)]
  }

  function DigitChar(d: nat): char
    requires d < 10
  {
    "0123456789"[d]
  }

  /** Quotient and remainder of `n` by ten, by repeated subtraction. */
  function DivMod10(n: nat): (qr: (nat, nat))
    ensures qr.1 < 10 && n == 10 * qr.0 + qr.1
    decreases n
  {
    if n < 10 then (0, n) else var qr := DivMod10(n - 10); (qr.0 + 1, qr.1)
  }

  // ---------------------------------------------------------------------
  // Lemmas about the projection
  // ---------------------------------------------------------------------

  /** A column is insertable exactly when it is one of the first `n` columns and not computed. */
  lemma {:induction false} InsertablePrefixMembership(columns: seq<Column>, n: nat, c: Column)
    requires n <= |columns|
    ensures c in InsertablePrefix(columns, n) <==> c in columns[..n] && !c.computed
    decreases n
  {
    if n > 0 {
      InsertablePrefixMembership(columns, n - 1, c);
      assert columns[..n] == columns[..n - 1] + [columns[n - 1]];
    }
  }

  /** A column is insertable exactly when it is a column of the table and not computed. */
  lemma InsertableMembership(columns: seq<Column>, c: Column)
    ensures c in Insertable(columns) <==> c in columns && !c.computed
  {
    InsertablePrefixMembership(columns, |columns|, c);
    assert columns[..|columns|] == columns;
  }

  /** The first `n` columns of `a + b` are the first `n` columns of `a` when `n <= |a|`. */
  lemma {:induction false} InsertablePrefixOfLeft(a: seq<Column>, b: seq<Column>, n: nat)
    requires n <= |a|
    ensures InsertablePrefix(a + b, n) == InsertablePrefix(a, n)
    decreases n
  {
    if n > 0 {
      InsertablePrefixOfLeft(a, b, n - 1);
      assert (a + b)[n - 1] == a[n - 1];
    }
  }

  lemma {:induction false} InsertablePrefixOfRight(a: seq<Column>, b: seq<Column>, n: nat)
    requires n <= |b|
    ensures InsertablePrefix(a + b, |a| + n) == Insertable(a) + InsertablePrefix(b, n)
    decreases n
  {
    if n == 0 {
      InsertablePrefixOfLeft(a, b, |a|);
    } else {
      InsertablePrefixOfRight(a, b, n - 1);
      assert (a + b)[|a| + n - 1] == b[n - 1];
    }
  }

  /** Filtering keeps table order: it distributes over concatenation. */
  lemma InsertableConcat(a: seq<Column>, b: seq<Column>)
    ensures Insertable(a + b) == Insertable(a) + Insertable(b)
  {
    InsertablePrefixOfRight(a, b, |b|);
  }

  /** Without computed columns every column is insertable. */
  lemma {:induction false} InsertablePrefixAll(columns: seq<Column>, n: nat)
    requires n <= |columns|
    requires forall i :: 0 <= i < |columns| ==> !columns[i].computed
    ensures InsertablePrefix(columns, n) == columns[..n]
    decreases n
  {
    if n > 0 {
      InsertablePrefixAll(columns, n - 1);
      assert columns[..n] == columns[..n - 1] + [columns[n - 1]];
    }
  }

  lemma ProjectionSnoc(cs: seq<Column>, c: Column)
    ensures Projection(cs + [c]) == if cs == [] then Bracket(c.name) else Projection(cs) + "," + Bracket(c.name)
  {
    assert (cs + [c])[..|cs + [c]| - 1] == cs;
  }

  lemma MappingsSnoc(cs: seq<Column>, c: Column)
    ensures Mappings(cs + [c]) == Mappings(cs) + [Mapping(c)]
  {
    assert (cs + [c])[..|cs + [c]| - 1] == cs;
  }

  /** One iteration before the last index: a non-computed column is written with a comma after it. */
  lemma PieceBeforeLast(columns: seq<Column>, n: nat)
    requires 0 < n < |columns|
    requires ColumnPieces(columns, n - 1) ==
               Projection(InsertablePrefix(columns, n - 1)) + (if InsertablePrefix(columns, n - 1) == [] then "" else ",")
    ensures ColumnPieces(columns, n) ==
              Projection(InsertablePrefix(columns, n)) + (if InsertablePrefix(columns, n) == [] then "" else ",")
  {
    var c := columns[n - 1];
    var before := InsertablePrefix(columns, n - 1);
    if !c.computed {
      ProjectionSnoc(before, c);
      var b := Bracket(c.name);
      if before == [] {
        assert ColumnPieces(columns, n) == "" + (b + ",");
      } else {
        assert ColumnPieces(columns, n) == (Projection(before) + ",") + (b + ",");
        assert (Projection(before) + ",") + (b + ",") == (Projection(before) + "," + b) + ",";
      }
    }
  }

  /** Before the last index, every insertable column has been written with a comma after it. */
  lemma {:induction false} PiecesBeforeLast(columns: seq<Column>, n: nat)
    requires n < |columns|
    ensures ColumnPieces(columns, n) ==
              Projection(InsertablePrefix(columns, n)) + (if InsertablePrefix(columns, n) == [] then "" else ",")
    decreases n
  {
    if n > 0 {
      PiecesBeforeLast(columns, n - 1);
      PieceBeforeLast(columns, n);
    }
  }

  /**
   * The projection is the comma-joined bracketed insertable columns, plus one
   * trailing comma exactly when the table's last column is computed and some
   * column is insertable.
   */
  lemma ColumnListShape(columns: seq<Column>)
    ensures ColumnList(columns) ==
              Projection(Insertable(columns))
              + (if Insertable(columns) != [] && columns[|columns| - 1].computed then "," else "")
  {
    if columns != [] {
      var n := |columns| - 1;
      var c := columns[n];
      PiecesBeforeLast(columns, n);
      var before := InsertablePrefix(columns, n);
      if !c.computed {
        ProjectionSnoc(before, c);
        var b := Bracket(c.name);
        if before != [] {
          assert ColumnList(columns) == (Projection(before) + ",") + b;
        }
      }
    }
  }

  /** With no computed column, the projection is the plain comma-joined list of all columns. */
  lemma ColumnListWithoutComputed(columns: seq<Column>)
    requires forall i :: 0 <= i < |columns| ==> !columns[i].computed
    ensures ColumnList(columns) == Projection(columns)
  {
    ColumnListShape(columns);
    InsertablePrefixAll(columns, |columns|);
    assert columns[..|columns|] == columns;
  }

  /** A non-empty projection ends with the closing bracket of its last name. */
  lemma {:induction false} ProjectionEndsWithBracket(cs: seq<Column>)
    requires cs != []
    ensures |Projection(cs)| >= 2 && Projection(cs)[|Projection(cs)| - 1] == ']'
    decreases |cs|
  {
    if |cs| > 1 {
      ProjectionEndsWithBracket(cs[..|cs| - 1]);
    }
  }

  /** The projection is empty exactly when no column is insertable (also: no columns at all). */
  lemma ColumnListEmptyIff(columns: seq<Column>)
    ensures ColumnList(columns) == "" <==> Insertable(columns) == []
  {
    ColumnListShape(columns);
    if Insertable(columns) != [] {
      ProjectionEndsWithBracket(Insertable(columns));
    }
  }

  /**
   * When the last column is computed and another is insertable the
   * projection ends in a comma; otherwise it never does.
   */
  lemma TrailingCommaIff(columns: seq<Column>)
    ensures var s := ColumnList(columns);
            (s != [] && s[|s| - 1] == ',') <==> (Insertable(columns) != [] && columns[|columns| - 1].computed)
  {
    ColumnListShape(columns);
    if Insertable(columns) != [] {
      ProjectionEndsWithBracket(Insertable(columns));
    }
  }

  /** The i-th mapping maps the i-th insertable column, the i-th name of the projection, to itself. */
  lemma {:induction false} MappingsMatchColumns(cs: seq<Column>)
    ensures |Mappings(cs)| == |cs|
    ensures forall i :: 0 <= i < |cs| ==> Mappings(cs)[i] == (cs[i].name, cs[i].name)
    decreases |cs|
  {
    if cs != [] {
      MappingsMatchColumns(cs[..|cs| - 1]);
    }
  }

  /** The loop's mappings are the mappings of the insertable columns. */
  lemma {:induction false} MappingPiecesOfInsertable(columns: seq<Column>, n: nat)
    requires n <= |columns|
    ensures MappingPieces(columns, n) == Mappings(InsertablePrefix(columns, n))
  {
    if n > 0 {
      MappingPiecesOfInsertable(columns, n - 1);
      var c := columns[n - 1];
      if !c.computed {
        var ins := InsertablePrefix(columns, n - 1);
        assert InsertablePrefix(columns, n) == ins + [c];
        assert MappingPieces(columns, n) == MappingPieces(columns, n - 1) + [Mapping(c)];
        MappingsSnoc(ins, c);
      }
    }
  }

  /** The mappings are exactly the insertable columns, each to the column of the same name. */
  lemma MappingsMatchProjection(columns: seq<Column>)
    ensures var m := MappingsOf(columns);
            var ins := Insertable(columns);
            |m| == |ins| &&
            forall i :: 0 <= i < |m| ==> m[i] == (ins[i].name, ins[i].name) && !ins[i].computed
  {
    MappingPiecesOfInsertable(columns, |columns|);
    MappingsMatchColumns(Insertable(columns));
  }

  /**
   * A table `Orders(id, total, computedTax)` whose last column is computed:
   * the projection keeps the comma that the loop wrote after `total`, so the
   * statement reads `SELECT [id],[total], FROM ...`.
   */
  lemma OrdersProjectionKeepsComma()
    ensures ColumnList([Column("id", false), Column("total", false), Column("computedTax", true)]) == "[id],[total],"
  {
    var cols := [Column("id", false), Column("total", false), Column("computedTax", true)];
    assert ColumnPieces(cols, 1) == "[id],";
    assert ColumnPieces(cols, 2) == "[id]," + "[total],";
  }

  /** A table without computed columns, `Customers(id, name)`: `[id],[name]`. */
  lemma CustomersProjection()
    ensures ColumnList([Column("id", false), Column("name", false)]) == "[id],[name]"
  {
    var cols := [Column("id", false), Column("name", false)];
    assert ColumnPieces(cols, 1) == "[id],";
    assert ColumnList(cols) == "[id]," + "[name]";
  }

  // ---------------------------------------------------------------------
  // The copy loop, as a function of the outcomes of the network calls
  // ---------------------------------------------------------------------

  /** What the loop computes for one table before touching the network. */
  datatype TablePlan = TablePlan(select: string, destinationTableName: string, mappings: seq<(string, string)>)

  function PlanOf(databaseName: string, table: Table): TablePlan
  {
    TablePlan(SelectStatement(databaseName, table), DestinationTableName(table), MappingsOf(table.columns))
  }

  /** `plans` are the plans of `tables`, in table order. */
  predicate PlansFor(databaseName: string, tables: seq<Table>, plans: seq<TablePlan>)
  {
    |plans| == |tables| &&
    forall i {:trigger tables[i]} :: 0 <= i < |tables| ==> plans[i] == PlanOf(databaseName, tables[i])
  }

  /**
   * The plans of all tables, in table order: the one sequence `PlansFor`
   * describes (see `PlansForIsPlansOf`). It is chosen by that description
   * so that a proof meets the plan of a table only where it names the table.
   */
  ghost function PlansOf(databaseName: string, tables: seq<Table>): (r: seq<TablePlan>)
    ensures PlansFor(databaseName, tables, r)
  {
    var plans := seq(|tables|, i requires 0 <= i < |tables| => PlanOf(databaseName, tables[i]));
    assert PlansFor(databaseName, tables, plans);
    var r :| PlansFor(databaseName, tables, r);
    r
  }

  /** The plans of a list of tables are determined by the tables. */
  lemma PlansForIsPlansOf(databaseName: string, tables: seq<Table>, plans: seq<TablePlan>)
    requires PlansFor(databaseName, tables, plans)
    ensures plans == PlansOf(databaseName, tables)
  {
    var r := PlansOf(databaseName, tables);
    forall i | 0 <= i < |tables|
      ensures plans[i] == r[i]
    {
      assert plans[i] == PlanOf(databaseName, tables[i]);
    }
  }

  /**
   * One table, starting at request number `k`: log the SELECT, execute the
   * reader (a failure escapes), open the destination connection (a failure
   * escapes), bulk-write (a failure is caught; only success is logged).
   */
  function TableStep(plan: TablePlan, destination: string, outcomes: seq<Outcome>, k: nat): Trace<string>
  {
    if OutcomeAt(outcomes, k) != Ok then Trace([plan.select], [ExecuteReader(plan.select)], false)
    else if OutcomeAt(outcomes, k + 1) != Ok then
      Trace([plan.select], [ExecuteReader(plan.select), OpenConnection(destination)], false)
    else
      Trace([plan.select] + (if OutcomeAt(outcomes, k + 2) == Ok then [SuccessLine(plan.destinationTableName)] else []),
            StepRequests(plan, destination), true)
  }

  /**
   * The first `n` tables of the loop, starting at request number `k`. A
   * table is reached only when every earlier one made its three requests,
   * so table `i` starts at request number `k + 3 * i`.
   */
  function TableLoop(plans: seq<TablePlan>, destination: string, outcomes: seq<Outcome>, k: nat, n: nat): Trace<string>
    requires n <= |plans|
  {
    if n == 0 then Skip()
    else Then(TableLoop(plans, destination, outcomes, k, n - 1), TableStep(plans[n - 1], destination, outcomes, k + 3 * (n - 1)))
  }

  /**
   * `CopyDataFromTableToTable`, starting at request number `k`: open the
   * source connection, log and execute `USE [source]`, log the table count,
   * run the table loop, log the closing line.
   */
  ghost function DataCopy(source: Database, connectionString: string, destination: string,
                    outcomes: seq<Outcome>, k: nat): Trace<string>
  {
    var use := UseLine(source.name);
    if OutcomeAt(outcomes, k) != Ok then Trace([], [OpenConnection(connectionString)], false)
    else if OutcomeAt(outcomes, k + 1) != Ok then
      Trace([use], [OpenConnection(connectionString), ExecuteNonQuery(use)], false)
    else
      var start := Trace([use, StartLine(|source.tables|)],
                         [OpenConnection(connectionString), ExecuteNonQuery(use)], true);
      var plans := PlansOf(source.name, source.tables);
      var loop := TableLoop(plans, destination, outcomes, k + 2, |plans|);
      Then(Then(start, loop), Trace([FinalLine], [], true))
  }

  // ---------------------------------------------------------------------
  // Lemmas about the copy loop
  // ---------------------------------------------------------------------

  /** Once `USE` has succeeded, the log and the requests grow step by step as the method makes them. */
  lemma DataCopyAfterUse(source: Database, connectionString: string, destination: string,
                         outcomes: seq<Outcome>, k: nat, lines0: seq<string>, requests0: seq<Request>)
    requires OutcomeAt(outcomes, k) == Ok && OutcomeAt(outcomes, k + 1) == Ok
    ensures var t := DataCopy(source, connectionString, destination, outcomes, k);
            var l := TableLoop(PlansOf(source.name, source.tables), destination, outcomes, k + 2, |source.tables|);
            var use := UseLine(source.name);
            var prefix := ((lines0 + [use]) + [StartLine(|source.tables|)]) + l.lines;
            lines0 + t.lines == (if l.completed then prefix + [FinalLine] else prefix) &&
            requests0 + t.requests == ((requests0 + [OpenConnection(connectionString)]) + [ExecuteNonQuery(use)]) + l.requests &&
            t.completed == l.completed
  {
    var l := TableLoop(PlansOf(source.name, source.tables), destination, outcomes, k + 2, |source.tables|);
    var use := UseLine(source.name);
    var start := [use, StartLine(|source.tables|)];
    AppendAssoc(lines0, [use], [StartLine(|source.tables|)]);
    AppendAssoc(lines0, start, l.lines);
    AppendAssoc(lines0 + start, l.lines, [FinalLine]);
    AppendAssoc(lines0, start + l.lines, [FinalLine]);
    AppendAssoc(requests0, [OpenConnection(connectionString)], [ExecuteNonQuery(use)]);
    AppendAssoc(requests0, [OpenConnection(connectionString), ExecuteNonQuery(use)], l.requests);
  }

  /** Running table `i` after a loop that has run `i` tables without throwing. */
  lemma ExtendLoop(plans: seq<TablePlan>, destination: string, outcomes: seq<Outcome>, k: nat, i: nat,
                   lines0: seq<string>, requests0: seq<Request>)
    requires i < |plans|
    requires TableLoop(plans, destination, outcomes, k, i).completed
    ensures var l := TableLoop(plans, destination, outcomes, k, i);
            var step := TableStep(plans[i], destination, outcomes, k + 3 * i);
            var next := TableLoop(plans, destination, outcomes, k, i + 1);
            (lines0 + l.lines) + step.lines == lines0 + next.lines &&
            (requests0 + l.requests) + step.requests == requests0 + next.requests &&
            next.completed == step.completed
  {
    var l := TableLoop(plans, destination, outcomes, k, i);
    var step := TableStep(plans[i], destination, outcomes, k + 3 * i);
    AppendAssoc(lines0, l.lines, step.lines);
    AppendAssoc(requests0, l.requests, step.requests);
  }

  /** Once a table has thrown, no later table is attempted. */
  lemma {:induction false} LoopStopsAfterFailure(plans: seq<TablePlan>, destination: string,
                                                 outcomes: seq<Outcome>, k: nat, n: nat, m: nat)
    requires n <= m <= |plans|
    requires !TableLoop(plans, destination, outcomes, k, n).completed
    ensures TableLoop(plans, destination, outcomes, k, m) == TableLoop(plans, destination, outcomes, k, n)
    decreases m
  {
    if m > n {
      LoopStopsAfterFailure(plans, destination, outcomes, k, n, m - 1);
    }
  }

  /**
   * A reader failure at table `n` ends the loop: the SELECT of table `n` is
   * the last line logged, its reader the last request, and the loop throws.
   */
  lemma ReaderFailureEndsLoop(plans: seq<TablePlan>, destination: string,
                              outcomes: seq<Outcome>, k: nat, n: nat, m: nat)
    requires n < m <= |plans|
    requires TableLoop(plans, destination, outcomes, k, n).completed
    requires OutcomeAt(outcomes, k + 3 * n) != Ok
    ensures var before := TableLoop(plans, destination, outcomes, k, n);
            var after := TableLoop(plans, destination, outcomes, k, m);
            !after.completed &&
            after.lines == before.lines + [plans[n].select] &&
            after.requests == before.requests + [ExecuteReader(plans[n].select)]
  {
    LoopStopsAfterFailure(plans, destination, outcomes, k, n + 1, m);
  }

  /** The log of a loop in which no read failed: per table its SELECT and, if its write succeeded, the success line. */
  function LoopLines(plans: seq<TablePlan>, outcomes: seq<Outcome>, k: nat, n: nat): seq<string>
    requires n <= |plans|
  {
    if n == 0 then []
    else LoopLines(plans, outcomes, k, n - 1)
         + [plans[n - 1].select]
         + (if OutcomeAt(outcomes, k + 3 * (n - 1) + 2) == Ok then [SuccessLine(plans[n - 1].destinationTableName)] else [])
  }

  /** The three requests of a table whose reader and destination connection open. */
  function StepRequests(plan: TablePlan, destination: string): seq<Request>
  {
    [ExecuteReader(plan.select), OpenConnection(destination),
     WriteToServer(destination, plan.destinationTableName, plan.mappings)]
  }

  /** The requests of a loop in which no read failed. */
  function LoopRequests(plans: seq<TablePlan>, destination: string, n: nat): seq<Request>
    requires n <= |plans|
  {
    if n == 0 then [] else LoopRequests(plans, destination, n - 1) + StepRequests(plans[n - 1], destination)
  }

  /** `LoopRequests` holds three requests per table, in table order. */
  lemma {:induction false} LoopRequestsAt(plans: seq<TablePlan>, destination: string, n: nat)
    requires n <= |plans|
    ensures var r := LoopRequests(plans, destination, n);
            |r| == 3 * n &&
            forall i :: 0 <= i < n ==>
              r[3 * i] == ExecuteReader(plans[i].select) &&
              r[3 * i + 1] == OpenConnection(destination) &&
              r[3 * i + 2] == WriteToServer(destination, plans[i].destinationTableName, plans[i].mappings)
    decreases n
  {
    if n > 0 {
      LoopRequestsAt(plans, destination, n - 1);
    }
  }

  /**
   * A loop that ends normally made exactly three requests per table, in
   * table order (reader, destination connection, bulk write with the
   * table's mappings) whatever the outcome of the writes, and logged
   * `LoopLines`.
   */
  lemma {:induction false} CompletedLoopShape(plans: seq<TablePlan>, destination: string,
                                              outcomes: seq<Outcome>, k: nat, n: nat)
    requires n <= |plans|
    requires TableLoop(plans, destination, outcomes, k, n).completed
    ensures var t := TableLoop(plans, destination, outcomes, k, n);
            t.requests == LoopRequests(plans, destination, n) &&
            t.lines == LoopLines(plans, outcomes, k, n)
    decreases n
  {
    if n > 0 {
      CompletedLoopShape(plans, destination, outcomes, k, n - 1);
    }
  }

  lemma SuccessLineInjective(a: string, b: string)
    requires SuccessLine(a) == SuccessLine(b)
    ensures a == b
  {
    var prefix := "Bulk copy successful for table ";
    assert SuccessLine(a)[|prefix|..] == a;
    assert SuccessLine(b)[|prefix|..] == b;
  }

  /** The success line of table `i` is in `LoopLines` exactly when table `i`'s write succeeded. */
  lemma {:induction false} SuccessLineIff(plans: seq<TablePlan>, outcomes: seq<Outcome>, k: nat, n: nat, i: nat)
    requires n <= |plans| && i < |plans|
    requires forall a, b :: 0 <= a < b < |plans| ==>
               plans[a].destinationTableName != plans[b].destinationTableName
    requires forall a :: 0 <= a < |plans| ==> IsSelectLine(plans[a].select)
    ensures SuccessLine(plans[i].destinationTableName) in LoopLines(plans, outcomes, k, n)
            <==> i < n && OutcomeAt(outcomes, k + 3 * i + 2) == Ok
    decreases n
  {
    if n > 0 {
      SuccessLineIff(plans, outcomes, k, n - 1, i);
      var line := SuccessLine(plans[i].destinationTableName);
      assert line[0] == 'B';
      assert plans[n - 1].select[0] == 'S';
      if i != n - 1 && line == SuccessLine(plans[n - 1].destinationTableName) {
        SuccessLineInjective(plans[i].destinationTableName, plans[n - 1].destinationTableName);
        assert false;
      }
    }
  }

  predicate IsSelectLine(line: string)
  {
    |line| >= 7 && line[..7] == "SELECT "
  }

  lemma PlansAreSelects(databaseName: string, tables: seq<Table>)
    ensures forall a :: 0 <= a < |tables| ==> IsSelectLine(PlansOf(databaseName, tables)[a].select)
  {
    forall a | 0 <= a < |tables|
      ensures IsSelectLine(PlansOf(databaseName, tables)[a].select)
    {
      var s := SelectStatement(databaseName, tables[a]);
      assert s[..7] == "SELECT ";
    }
  }

  /** A data copy that ends normally: its log and requests, table by table. */
  lemma CompletedDataCopyShape(source: Database, connectionString: string, destination: string,
                               outcomes: seq<Outcome>, k: nat)
    requires DataCopy(source, connectionString, destination, outcomes, k).completed
    ensures var t := DataCopy(source, connectionString, destination, outcomes, k);
            var plans := PlansOf(source.name, source.tables);
            t.lines == [UseLine(source.name), StartLine(|plans|)] + LoopLines(plans, outcomes, k + 2, |plans|) + [FinalLine] &&
            t.requests == [OpenConnection(connectionString), ExecuteNonQuery(UseLine(source.name))]
                          + LoopRequests(plans, destination, |plans|)
  {
    var plans := PlansOf(source.name, source.tables);
    CompletedLoopShape(plans, destination, outcomes, k + 2, |plans|);
  }

  /** No line other than a success line starts with "Bu". */
  lemma SuccessLineIsNotFramingLine(d: string, source: Database, n: nat)
    ensures SuccessLine(d) != UseLine(source.name)
    ensures SuccessLine(d) != StartLine(n)
    ensures SuccessLine(d) != FinalLine
  {
    assert SuccessLine(d)[0] == 'B' && SuccessLine(d)[1] == 'u';
    assert UseLine(source.name)[0] == 'U';
    assert StartLine(n)[1] == 't';
    assert FinalLine[0] == 'S';
  }

  /**
   * In a data copy that ends normally, every table's write was attempted,
   * in table order, with that table's destination name and mappings.
   */
  lemma EveryWriteAttempted(source: Database, connectionString: string, destination: string,
                            outcomes: seq<Outcome>, k: nat, i: nat)
    requires i < |source.tables|
    requires DataCopy(source, connectionString, destination, outcomes, k).completed
    ensures var t := DataCopy(source, connectionString, destination, outcomes, k);
            var table := source.tables[i];
            |t.requests| == 2 + 3 * |source.tables| &&
            t.requests[2 + 3 * i + 2] == WriteToServer(destination, DestinationTableName(table), MappingsOf(table.columns))
  {
    var plans := PlansOf(source.name, source.tables);
    var n := |plans|;
    CompletedDataCopyShape(source, connectionString, destination, outcomes, k);
    LoopRequestsAt(plans, destination, n);
    IndexAfter([OpenConnection(connectionString), ExecuteNonQuery(UseLine(source.name))],
               LoopRequests(plans, destination, n), 3 * i + 2);
  }

  /**
   * Failure isolation: in a data copy that ends normally, a table's success
   * line is logged exactly when its own write succeeded, whatever happened
   * to the writes of the other tables.
   */
  lemma WriteFailureIsolated(source: Database, connectionString: string, destination: string,
                             outcomes: seq<Outcome>, k: nat, i: nat)
    requires i < |source.tables|
    requires forall a, b :: 0 <= a < b < |source.tables| ==>
               DestinationTableName(source.tables[a]) != DestinationTableName(source.tables[b])
    requires DataCopy(source, connectionString, destination, outcomes, k).completed
    ensures SuccessLine(DestinationTableName(source.tables[i])) in DataCopy(source, connectionString, destination, outcomes, k).lines
            <==> OutcomeAt(outcomes, k + 2 + 3 * i + 2) == Ok
  {
    var plans := PlansOf(source.name, source.tables);
    var n := |plans|;
    CompletedDataCopyShape(source, connectionString, destination, outcomes, k);
    PlansAreSelects(source.name, source.tables);
    forall a, b | 0 <= a < b < n
      ensures plans[a].destinationTableName != plans[b].destinationTableName
    {
      assert plans[a].destinationTableName == DestinationTableName(source.tables[a]);
      assert plans[b].destinationTableName == DestinationTableName(source.tables[b]);
    }
    SuccessLineIff(plans, outcomes, k + 2, n, i);
    var line := SuccessLine(plans[i].destinationTableName);
    SuccessLineIsNotFramingLine(plans[i].destinationTableName, source, n);
    InMiddle(line, [UseLine(source.name), StartLine(n)], LoopLines(plans, outcomes, k + 2, n), [FinalLine]);
  }

  lemma InMiddle<T>(x: T, a: seq<T>, m: seq<T>, b: seq<T>)
    requires x !in a && x !in b
    ensures x in a + m + b <==> x in m
  {
  }

  lemma IndexAfter<T>(a: seq<T>, m: seq<T>, j: nat)
    requires j < |m|
    ensures |a + m| == |a| + |m| && (a + m)[|a| + j] == m[j]
  {
  }

  /**
   * A loop that threw stopped at the first table `a` whose read or
   * destination connection failed: every earlier table went through, no
   * later table was reached, and the last line logged is that table's SELECT.
   */
  lemma {:induction false} FailedLoopEndsWithSelect(plans: seq<TablePlan>, destination: string,
                                                    outcomes: seq<Outcome>, k: nat, n: nat)
    requires n <= |plans|
    requires !TableLoop(plans, destination, outcomes, k, n).completed
    ensures exists a :: 0 <= a < n && FailedAt(plans, destination, outcomes, k, n, a)
    decreases n
  {
    var before := TableLoop(plans, destination, outcomes, k, n - 1);
    if !before.completed {
      FailedLoopEndsWithSelect(plans, destination, outcomes, k, n - 1);
      var a :| 0 <= a < n - 1 && FailedAt(plans, destination, outcomes, k, n - 1, a);
      assert FailedAt(plans, destination, outcomes, k, n, a);
    } else {
      assert FailedAt(plans, destination, outcomes, k, n, n - 1);
    }
  }

  /**
   * Table `a` is where the first `n` tables of the loop stopped: the loop
   * up to it completed, its read or destination connection failed, the
   * loop's trace is the one up to and including it, and its SELECT is the
   * last line.
   */
  ghost predicate FailedAt(plans: seq<TablePlan>, destination: string, outcomes: seq<Outcome>, k: nat, n: nat, a: nat)
    requires a < n <= |plans|
  {
    var l := TableLoop(plans, destination, outcomes, k, n).lines;
    TableLoop(plans, destination, outcomes, k, a).completed &&
    (OutcomeAt(outcomes, k + 3 * a) != Ok || OutcomeAt(outcomes, k + 3 * a + 1) != Ok) &&
    TableLoop(plans, destination, outcomes, k, n) == TableLoop(plans, destination, outcomes, k, a + 1) &&
    |l| > 0 && l[|l| - 1] == plans[a].select
  }

  lemma SelectLineIsNotFinalLine(line: string)
    requires IsSelectLine(line)
    ensures line != FinalLine
  {
    assert line[1] == "SELECT "[1];
    assert FinalLine[1] == 'u';
  }

  /** The closing line is the last line logged exactly when the data copy ends normally. */
  lemma FinalLineIffCompleted(source: Database, connectionString: string, destination: string,
                              outcomes: seq<Outcome>, k: nat)
    ensures var l := DataCopy(source, connectionString, destination, outcomes, k).lines;
            DataCopy(source, connectionString, destination, outcomes, k).completed
            <==> |l| > 0 && l[|l| - 1] == FinalLine
  {
    var t := DataCopy(source, connectionString, destination, outcomes, k);
    var plans := PlansOf(source.name, source.tables);
    var n := |plans|;
    var use := UseLine(source.name);
    if OutcomeAt(outcomes, k) != Ok {
      assert t.lines == [];
    } else if OutcomeAt(outcomes, k + 1) != Ok {
      assert t.lines == [use];
      assert use[0] == 'U' && FinalLine[0] == 'S';
    } else {
      var loop := TableLoop(plans, destination, outcomes, k + 2, n);
      var framed := [use, StartLine(n)] + loop.lines;
      if loop.completed {
        assert t.lines == framed + [FinalLine];
      } else {
        assert t.lines == framed;
        FailedLoopEndsWithSelect(plans, destination, outcomes, k + 2, n);
        PlansAreSelects(source.name, source.tables);
        var l := loop.lines;
        var a :| 0 <= a < n && FailedAt(plans, destination, outcomes, k + 2, n, a);
        assert framed[|framed| - 1] == l[|l| - 1];
        SelectLineIsNotFinalLine(plans[a].select);
      }
    }
  }

  /** When every read and every destination connection succeeds the loop ends normally, whatever the writes do. */
  lemma {:induction false} LoopCompletesDespiteWriteFailures(plans: seq<TablePlan>, destination: string,
                                                             outcomes: seq<Outcome>, k: nat, n: nat)
    requires n <= |plans|
    requires forall i :: 0 <= i < n ==> OutcomeAt(outcomes, k + 3 * i) == Ok && OutcomeAt(outcomes, k + 3 * i + 1) == Ok
    ensures TableLoop(plans, destination, outcomes, k, n).completed
    decreases n
  {
    if n > 0 {
      LoopCompletesDespiteWriteFailures(plans, destination, outcomes, k, n - 1);
      assert OutcomeAt(outcomes, k + 3 * (n - 1)) == Ok && OutcomeAt(outcomes, k + 3 * (n - 1) + 1) == Ok;
    }
  }

  /**
   * Failed bulk writes never stop the data copy: when the connections, the
   * `USE` command and every read succeed, the closing line is the last line
   * logged, whatever the outcome of the writes.
   */
  lemma FinalLineDespiteWriteFailures(source: Database, connectionString: string, destination: string,
                                      outcomes: seq<Outcome>, k: nat)
    requires OutcomeAt(outcomes, k) == Ok && OutcomeAt(outcomes, k + 1) == Ok
    requires forall i :: 0 <= i < |source.tables| ==>
               OutcomeAt(outcomes, k + 2 + 3 * i) == Ok && OutcomeAt(outcomes, k + 2 + 3 * i + 1) == Ok
    ensures var t := DataCopy(source, connectionString, destination, outcomes, k);
            t.completed && |t.lines| > 0 && t.lines[|t.lines| - 1] == FinalLine
  {
    var plans := PlansOf(source.name, source.tables);
    forall i | 0 <= i < |plans|
      ensures OutcomeAt(outcomes, k + 2 + 3 * i) == Ok && OutcomeAt(outcomes, k + 2 + 3 * i + 1) == Ok
    {
    }
    LoopCompletesDespiteWriteFailures(plans, destination, outcomes, k + 2, |plans|);
    FinalLineIffCompleted(source, connectionString, destination, outcomes, k);
  }

  /** With no tables, the copy logs the USE line, the count and the closing line, and makes two requests. */
  lemma EmptyDatabaseCopy(source: Database, connectionString: string, destination: string,
                          outcomes: seq<Outcome>, k: nat)
    requires source.tables == []
    requires OutcomeAt(outcomes, k) == Ok && OutcomeAt(outcomes, k + 1) == Ok
    ensures DataCopy(source, connectionString, destination, outcomes, k)
            == Trace([UseLine(source.name), StartLine(0), FinalLine],
                     [OpenConnection(connectionString), ExecuteNonQuery(UseLine(source.name))], true)
  {
  }

  /** The requests a data copy may make: connections, commands, readers and bulk writes. */
  predicate DataRequest(r: Request)
  {
    r.OpenConnection? || r.ExecuteNonQuery? || r.ExecuteReader? || r.WriteToServer?
  }

  /** The copy loop only reads and writes rows: it never creates or scripts a database. */
  lemma {:induction false} TableLoopMakesDataRequests(plans: seq<TablePlan>, destination: string,
                                                      outcomes: seq<Outcome>, k: nat, n: nat)
    requires n <= |plans|
    ensures forall r :: r in TableLoop(plans, destination, outcomes, k, n).requests ==> DataRequest(r)
    decreases n
  {
    if n > 0 {
      TableLoopMakesDataRequests(plans, destination, outcomes, k, n - 1);
    }
  }

  /** Neither does the whole data copy. */
  lemma DataCopyMakesDataRequests(source: Database, connectionString: string, destination: string,
                                  outcomes: seq<Outcome>, k: nat)
    ensures forall r :: r in DataCopy(source, connectionString, destination, outcomes, k).requests ==> DataRequest(r)
  {
    var plans := PlansOf(source.name, source.tables);
    TableLoopMakesDataRequests(plans, destination, outcomes, k + 2, |plans|);
  }

  // ---------------------------------------------------------------------
  // The table manager
  // ---------------------------------------------------------------------

  class DatabaseTableManager {
    const log: LogFileManager
    const sql: SqlServer
    /**
     * The connection string of the server (its default database) and the
     * settings: the schema manager sets both once, right after creating the
     * table manager, so they are constants here.
     */
    const connectionString: string
    const applicationSettingsHelper: Settings.ApplicationSettingsHelper
    var sourceDatabase: Option<Database>

    constructor (log: LogFileManager, sql: SqlServer, connectionString: string,
                 applicationSettingsHelper: Settings.ApplicationSettingsHelper)
      ensures this.log == log && this.sql == sql
      ensures this.connectionString == connectionString
      ensures this.applicationSettingsHelper == applicationSettingsHelper
      ensures sourceDatabase == None
    {
      this.log := log;
      this.sql := sql;
      this.connectionString := connectionString;
      this.applicationSettingsHelper := applicationSettingsHelper;
      sourceDatabase := None;
    }

    /** The projection of a table, built by the indexed loop. */
    static method GetListOfColumnsOfTable(table: Table) returns (columns: string)
      ensures columns == ColumnList(table.columns)
    {
      columns := "";
      for i := 0 to |table.columns|
        invariant columns == ColumnPieces(table.columns, i)
      {
        ghost var before := columns;
        if !table.columns[i].computed {
          var columnName := Bracket(table.columns[i].name);
          columns := columns + columnName;
          if i != |table.columns| - 1 {
            columns := columns + ",";
            assert columns == before + (columnName + ",");
          }
        }
      }
    }

    /** The `ColumnMappings.Add` loop: skips computed columns. */
    static method AddColumnMappings(table: Table) returns (mappings: seq<(string, string)>)
      ensures mappings == MappingsOf(table.columns)
    {
      mappings := [];
      for i := 0 to |table.columns|
        invariant mappings == MappingPieces(table.columns, i)
      {
        var column := table.columns[i];
        if !column.computed {
          mappings := mappings + [(column.name, column.name)];
        }
      }
    }

    /**
     * One iteration of the copy loop: reads a table of `databaseName` and
     * bulk-writes it to `destination`. A failed write is caught; a failed
     * read or connection escapes (returns false) with the reader left open.
     */
    method CopyTable(databaseName: string, table: Table, destination: string, ghost plan: TablePlan, ghost k: nat)
        returns (completed: bool)
      requires plan == PlanOf(databaseName, table)
      requires |sql.requests| == k
      modifies log, sql
      ensures var t := TableStep(plan, destination, sql.outcomes, k);
              log.lines == old(log.lines) + t.lines &&
              sql.requests == old(sql.requests) + t.requests &&
              completed == t.completed
      ensures completed ==> sql.openReaders == old(sql.openReaders)
    {
      var columnsTable := GetListOfColumnsOfTable(table);
      var select := "SELECT " + columnsTable + " FROM [" + databaseName + "].[" + table.schema + "].[" + table.name + "]";
      assert select == plan.select;
      log.WriteToLogFile(select);
      var o := sql.OpenReader(select);
      if o != Ok {
        return false;
      }
      o := sql.Send(OpenConnection(destination));
      if o != Ok {
        return false;
      }
      var destinationTableName := "[" + table.schema + "].[" + table.name + "]";
      var mappings := AddColumnMappings(table);
      o := sql.Send(WriteToServer(destination, destinationTableName, mappings));
      assert sql.requests == old(sql.requests) + StepRequests(plan, destination);
      if o == Ok {
        log.WriteToLogFile("Bulk copy successful for table " + destinationTableName);
        assert log.lines == old(log.lines) + [plan.select, SuccessLine(plan.destinationTableName)];
      }
      sql.CloseReader();
      completed := true;
    }

    /**
     * Table `i` of the copy loop, after tables `0 .. i - 1` have run without
     * throwing: the log and the requests grow from those of `i` tables to
     * those of `i + 1` tables.
     */
    method CopyNextTable(databaseName: string, tables: seq<Table>, destination: string, i: nat,
                         ghost plans: seq<TablePlan>, ghost k: nat,
                         ghost lines0: seq<string>, ghost requests0: seq<Request>)
        returns (completed: bool)
      requires PlansFor(databaseName, tables, plans) && i < |tables| && |requests0| == k
      requires var l := TableLoop(plans, destination, sql.outcomes, k, i);
               l.completed && |l.requests| == 3 * i &&
               log.lines == lines0 + l.lines && sql.requests == requests0 + l.requests
      modifies log, sql
      ensures var l := TableLoop(plans, destination, sql.outcomes, k, i + 1);
              log.lines == lines0 + l.lines && sql.requests == requests0 + l.requests &&
              completed == l.completed && (completed ==> |l.requests| == 3 * (i + 1))
      ensures completed ==> sql.openReaders == old(sql.openReaders)
    {
      completed := CopyTable(databaseName, tables[i], destination, plans[i], k + 3 * i);
      ExtendLoop(plans, destination, sql.outcomes, k, i, lines0, requests0);
    }

    /** The copy loop over `tables`, stopping at the first table whose read or connection throws. */
    method CopyTables(databaseName: string, tables: seq<Table>, destination: string, ghost plans: seq<TablePlan>)
        returns (completed: bool)
      requires PlansFor(databaseName, tables, plans)
      modifies log, sql
      ensures var l := TableLoop(plans, destination, sql.outcomes, |old(sql.requests)|, |tables|);
              log.lines == old(log.lines) + l.lines &&
              sql.requests == old(sql.requests) + l.requests &&
              completed == l.completed
      ensures completed ==> sql.openReaders == old(sql.openReaders)
    {
      ghost var k := |sql.requests|;
      var i := 0;
      while i < |tables|
        invariant 0 <= i <= |tables|
        invariant var l := TableLoop(plans, destination, sql.outcomes, k, i);
                  l.completed && |l.requests| == 3 * i &&
                  log.lines == old(log.lines) + l.lines &&
                  sql.requests == old(sql.requests) + l.requests
        invariant sql.openReaders == old(sql.openReaders)
      {
        var ok := CopyNextTable(databaseName, tables, destination, i, plans, k, old(log.lines), old(sql.requests));
        if !ok {
          LoopStopsAfterFailure(plans, destination, sql.outcomes, k, i + 1, |tables|);
          return false;
        }
        i := i + 1;
      }
      completed := true;
    }

    /**
     * Copies the data of every table of the source database into the clone
     * database `cloneName`. Returns false when an exception escapes.
     */
    method CopyDataFromTableToTable(cloneName: string) returns (completed: bool)
      requires sourceDatabase.Some?
      modifies log, sql
      ensures var t := DataCopy(sourceDatabase.value, connectionString,
                                Settings.GetUserDatabaseConnectionString(applicationSettingsHelper.config, cloneName),
                                sql.outcomes, |old(sql.requests)|);
              log.lines == old(log.lines) + t.lines &&
              sql.requests == old(sql.requests) + t.requests &&
              completed == t.completed
      ensures completed ==> sql.openReaders == old(sql.openReaders)
    {
      var source := sourceDatabase.value;
      var destination := Settings.GetUserDatabaseConnectionString(applicationSettingsHelper.config, cloneName);
      ghost var k := |sql.requests|;
      var o := sql.Send(OpenConnection(connectionString));
      if o != Ok {
        return false;
      }
      var use := "USE [" + source.name + "]";
      assert use == UseLine(source.name);
      log.WriteToLogFile(use);
      o := sql.Send(ExecuteNonQuery(use));
      if o != Ok {
        return false;
      }
      log.WriteToLogFile(StartLine(|source.tables|));
      DataCopyAfterUse(source, connectionString, destination, sql.outcomes, k, old(log.lines), old(sql.requests));
      completed := CopyTables(source.name, source.tables, destination, PlansOf(source.name, source.tables));
      if completed {
        log.WriteToLogFile(FinalLine);
      }
    }
  }
}
