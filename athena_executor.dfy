/** The log flow's query stage, `lambda_athena_executor`: for the first
    three tables created, three Athena queries (row count, error-line count,
    five sample rows) are run, the outcomes are collected per table, and a
    log summary and the evidence are built from them.

    Athena itself is not modelled: `run` gives, for a query kind and the
    qualified table name, the outcome the polling loop ends with.  The clock
    (`now`) and the text of an exception that escapes to the outer handler
    (`errText`) are parameters too. */
module AthenaExecutor {
  import opened Results
  import opened Text
  import opened JsonValue

  /** At most this many tables are analysed. */
  const MaxTables: nat := 3
  /** At most this many sample rows are kept. */
  const SampleRows: nat := 5

  // ---------------------------------------------------------------------
  // Result cells: `int(value)`, else the string itself

  function TrimStart(s: string): (r: string)
    ensures |r| <= |s|
    decreases |s|
  {
    if s != [] && IsSpace(s[0]) then TrimStart(s[1..]) else s
  }

  function TrimEnd(s: string): (r: string)
    ensures |r| <= |s|
    decreases |s|
  {
    if s != [] && IsSpace(s[|s| - 1]) then TrimEnd(s[..|s| - 1]) else s
  }

  predicate AllDigits(s: string) {
    forall i :: 0 <= i < |s| ==> '0' <= s[i] <= '9'
  }

  /** The number a string of decimal digits denotes. */
  function DigitsValue(s: string): nat
    requires AllDigits(s)
    decreases |s|
  {
    if s == [] then 0 else 10 * DigitsValue(s[..|s| - 1]) + (s[|s| - 1] as int - '0' as int)
  }

  /** `value.strip()` */
  function Strip(value: string): string {
    TrimStart(TrimEnd(value))
  }

  /** An optional sign, then one or more decimal digits. */
  function ParseSigned(t: string): Option<int> {
    if t == [] then None
    else
      var sign, digits := if t[0] == '-' then -1 else 1, if t[0] == '-' || t[0] == '+' then t[1..] else t;
      if digits != [] && AllDigits(digits) then Some(sign * DigitsValue(digits)) else None
  }

  /** `int(value)` on a string: surrounding whitespace, an optional sign,
      then one or more decimal digits; anything else raises (`None`). */
  function ParseInt(value: string): (r: Option<int>)
    ensures r.Some? ==> Strip(value) != []
  {
    ParseSigned(Strip(value))
  }

  lemma {:induction false} NatDigits(n: nat)
    ensures AllDigits(NatToString(n)) && DigitsValue(NatToString(n)) == n
    decreases n
  {
    var s := NatToString(n);
    if n >= 10 {
      NatDigits(n / 10);
      assert s[..|s| - 1] == NatToString(n / 10);
    } else {
      assert s[..|s| - 1] == [];
    }
  }

  lemma NoSpaceAround(s: string)
    requires s != [] && !IsSpace(s[0]) && !IsSpace(s[|s| - 1])
    ensures Strip(s) == s
  {
    assert TrimEnd(s) == s;
  }

  lemma NatRoundTrip(n: nat)
    ensures ParseInt(NatToString(n)) == Some(n)
  {
    NatDigits(n);
    var d := NatToString(n);
    assert '0' <= d[0] <= '9' && '0' <= d[|d| - 1] <= '9';
    NoSpaceAround(d);
    assert ParseSigned(d) == Some(1 * n);
  }

  lemma NegativeRoundTrip(n: nat)
    requires n > 0
    ensures ParseInt("-" + NatToString(n)) == Some(-(n as int))
  {
    NatDigits(n);
    var d := NatToString(n);
    var t := "-" + d;
    SignedNoSpace(d);
    ParseSignedNegative(d);
    assert ParseInt(t) == ParseSigned(t);
  }

  /** A minus sign before decimal digits has no space to strip. */
  lemma SignedNoSpace(d: string)
    requires d != [] && AllDigits(d)
    ensures Strip("-" + d) == "-" + d
  {
    var s := "-" + d;
    assert s[|s| - 1] == d[|d| - 1] && s[0] == '-';
    NoSpaceAround(s);
  }

  /** A minus sign before decimal digits negates their value. */
  lemma ParseSignedNegative(d: string)
    requires d != [] && AllDigits(d)
    ensures ParseSigned("-" + d) == Some(-(DigitsValue(d) as int))
  {
    assert ("-" + d)[1..] == d;
  }

  /** `str(i)` parses back to `i`: an integer cell keeps its value. */
  lemma ParseIntRoundTrip(i: int)
    ensures ParseInt(IntToString(i)) == Some(i)
  {
    var t := IntToString(i);
    if i < 0 {
      var n: nat := -i;
      assert t == "-" + NatToString(n);
      NegativeRoundTrip(n);
      assert ParseInt(t) == Some(-(n as int));
    } else {
      assert t == NatToString(i);
      NatRoundTrip(i);
    }
  }

  /** A cell of a result row: an integer when the text parses as one, else
      the text. */
  function ConvertCell(value: string): (j: Json)
    ensures ParseInt(value).Some? ==> j == JInt(ParseInt(value).value)
    ensures ParseInt(value).None? ==> j == JStr(value)
  {
    var p := ParseInt(value);
    if p.Some? then JInt(p.value) else JStr(value)
  }

  /** A cell as the service returns it: `None` when it has no value. */
  type Cell = Option<string>

  function CellText(c: Cell): string {
    if c.Some? then c.value else ""
  }

  function ConvertRow(row: seq<Cell>): (r: seq<Json>)
    ensures |r| == |row|
    ensures forall j :: 0 <= j < |row| ==> r[j] == ConvertCell(CellText(row[j]))
  {
    seq(|row|, j requires 0 <= j < |row| => ConvertCell(CellText(row[j])))
  }

  /** The result rows without the header row, each cell converted. */
  function ConvertRows(rows: seq<seq<Cell>>): (data: seq<seq<Json>>)
    ensures |data| == if rows == [] then 0 else |rows| - 1
    ensures forall i :: 0 <= i < |data| ==> data[i] == ConvertRow(rows[i + 1])
  {
    if rows == [] then [] else seq(|rows| - 1, i requires 0 <= i < |rows| - 1 => ConvertRow(rows[i + 1]))
  }

  /** The row loop of `execute_athena_query`: the header is dropped, a
      missing value becomes "", and every cell that parses as an integer
      becomes one. */
  method ConvertResultRows(rows: seq<seq<Cell>>) returns (data: seq<seq<Json>>)
    ensures data == ConvertRows(rows)
  {
    data := [];
    var i := 1;
    while i < |rows|
      invariant 1 <= i <= |rows| || (rows == [] && i == 1)
      invariant |data| == i - 1
      invariant forall k :: 0 <= k < i - 1 ==> data[k] == ConvertRow(rows[k + 1])
    {
      var row := rows[i];
      var converted: seq<Json> := [];
      for j := 0 to |row|
        invariant |converted| == j
        invariant forall k :: 0 <= k < j ==> converted[k] == ConvertCell(CellText(row[k]))
      {
        var value := CellText(row[j]);
        var parsed := ParseInt(value);
        if parsed.Some? {
          converted := converted + [JInt(parsed.value)];
        } else {
          converted := converted + [JStr(value)];
        }
      }
      data := data + [converted];
      i := i + 1;
    }
  }

  // ---------------------------------------------------------------------
  // `execute_athena_query` and `execute_table_analysis_query`

  /** The three queries run per table. */
  datatype QueryKind = CountRows | CountErrors | SampleRows5

  /** How a query ends: with its rows (header included), as FAILED with the
      service's reason if it gave one, by the 60-second wait running out,
      or with an exception's text. */
  datatype QueryOutcome =
    | Succeeded(rows: seq<seq<Cell>>)
    | Failed(reason: Option<string>)
    | TimedOut
    | Crashed(message: string)

  /** The dict `execute_athena_query` returns: `data` is absent (`None`)
      unless the query succeeded, or failed with `ignore_errors`. */
  datatype QueryResult = QueryResult(success: bool, data: Option<seq<seq<Json>>>, error: string)

  function Query(outcome: QueryOutcome, ignoreErrors: bool): (q: QueryResult)
    ensures q.success <==> outcome.Succeeded?
    ensures outcome.Succeeded? ==> q.data == Some(ConvertRows(outcome.rows))
    ensures outcome.Failed? && ignoreErrors ==> q.data == Some([])
    ensures !outcome.Succeeded? && !(outcome.Failed? && ignoreErrors) ==> q.data.None?
  {
    match outcome
    case Succeeded(rows) => QueryResult(true, Some(ConvertRows(rows)), "")
    case Failed(reason) =>
      QueryResult(false, if ignoreErrors then Some([]) else None, if reason.Some? then reason.value else "Unknown error")
    case TimedOut => QueryResult(false, None, "Query timeout")
    case Crashed(message) => QueryResult(false, None, message)
  }

  /** `execute_athena_query`, given the outcome of the polling loop. */
  method ExecuteAthenaQuery(outcome: QueryOutcome, ignoreErrors: bool) returns (q: QueryResult)
    ensures q == Query(outcome, ignoreErrors)
  {
    match outcome {
      case Succeeded(rows) =>
        var data := ConvertResultRows(rows);
        q := QueryResult(true, Some(data), "");
      case Failed(reason) =>
        var message := if reason.Some? then reason.value else "Unknown error";
        q := QueryResult(false, if ignoreErrors then Some([]) else None, message);
      case TimedOut =>
        q := QueryResult(false, None, "Query timeout");
      case Crashed(message) =>
        q := QueryResult(false, None, message);
    }
  }

  /** What one table's analysis returns. */
  datatype Analysis =
    | AnalysisOk(rowCount: Json, errorCount: Json, sample: seq<seq<Json>>)
    | AnalysisFailed(error: string)

  /** `data[0][0] if data else 0`; an empty first row raises IndexError. */
  function FirstCell(data: Option<seq<seq<Json>>>): Result<Json> {
    if data.None? || data.value == [] then Ok(JInt(0))
    else if data.value[0] == [] then Raised
    else Ok(data.value[0][0])
  }

  const IndexErrorText: string := "list index out of range"

  /** `execute_table_analysis_query(database, table, output_location)`;
      `name` is the qualified table name the queries are built from. */
  function TableAnalysis(name: string, run: (QueryKind, string) -> QueryOutcome): (a: Analysis)
    ensures !run(CountRows, name).Succeeded? ==> a == AnalysisFailed(Query(run(CountRows, name), false).error)
    ensures a.AnalysisOk? ==> |a.sample| <= SampleRows
  {
    var count := Query(run(CountRows, name), false);
    if !count.success then AnalysisFailed(count.error)
    else
      match FirstCell(count.data)
      case Raised => AnalysisFailed(IndexErrorText)
      case Ok(rowCount) =>
        match FirstCell(Query(run(CountErrors, name), true).data)
        case Raised => AnalysisFailed(IndexErrorText)
        case Ok(errorCount) =>
          var sample := Query(run(SampleRows5, name), false);
          var data := if sample.data.Some? then sample.data.value else [];
          AnalysisOk(rowCount, errorCount, if |data| <= SampleRows then data else data[..SampleRows])
  }

  method ExecuteTableAnalysisQuery(name: string, run: (QueryKind, string) -> QueryOutcome) returns (a: Analysis)
    ensures a == TableAnalysis(name, run)
  {
    var count := ExecuteAthenaQuery(run(CountRows, name), false);
    if !count.success {
      return AnalysisFailed(count.error);
    }
    var rowCount := FirstCell(count.data);
    if rowCount.Raised? {
      return AnalysisFailed(IndexErrorText);
    }
    var errors := ExecuteAthenaQuery(run(CountErrors, name), true);
    var errorCount := FirstCell(errors.data);
    if errorCount.Raised? {
      return AnalysisFailed(IndexErrorText);
    }
    var sample := ExecuteAthenaQuery(run(SampleRows5, name), false);
    var data := if sample.data.Some? then sample.data.value else [];
    return AnalysisOk(rowCount.value, errorCount.value, if |data| <= SampleRows then data else data[..SampleRows]);
  }

  // ---------------------------------------------------------------------
  // The table loop of `lambda_handler`

  /** An entry of `query_results`. */
  datatype Entry =
    | Analysed(table: Json, rowCount: Json, errorCount: Json, sample: seq<seq<Json>>)
    | Errored(table: Json, error: string)

  /** The text of the TypeError `total += value` raises on a non-integer. */
  function AddError(value: Json): string {
    "unsupported operand type(s) for +=: 'int' and '" + TypeName(value) + "'"
  }

  function QualifiedName(database: Json, table: Json): string {
    Show(database) + "." + Show(table)
  }

  /** One table's turn: a successful analysis is appended and its row count
      added; when that addition raises, an error entry for the same table
      follows the successful one. */
  function TableStep(state: (seq<Entry>, int), table: Json, a: Analysis): (s: (seq<Entry>, int))
    ensures |state.0| + 1 <= |s.0| <= |state.0| + 2 && s.0[..|state.0|] == state.0
    ensures s.0[|state.0|].table == table
    ensures |s.0| == |state.0| + 2 <==> (a.AnalysisOk? && AsInt(a.rowCount).Raised?)
  {
    var (entries, total) := state;
    match a
    case AnalysisFailed(error) => (entries + [Errored(table, error)], total)
    case AnalysisOk(rowCount, errorCount, sample) =>
      var analysed := entries + [Analysed(table, rowCount, errorCount, sample)];
      match AsInt(rowCount)
      case Ok(n) => (analysed, total + n)
      case Raised => (analysed + [Errored(table, AddError(rowCount))], total)
  }

  /** The analyses of the given tables, in order. */
  function Analyses(tables: seq<Json>, database: Json, run: (QueryKind, string) -> QueryOutcome): (analyses: seq<Analysis>)
    ensures |analyses| == |tables|
    ensures forall i :: 0 <= i < |tables| ==> analyses[i] == TableAnalysis(QualifiedName(database, tables[i]), run)
  {
    seq(|tables|, i requires 0 <= i < |tables| => TableAnalysis(QualifiedName(database, tables[i]), run))
  }

  /** The entries and the total after the tables with the given analyses. */
  function Fold(tables: seq<Json>, analyses: seq<Analysis>): (seq<Entry>, int)
    requires |analyses| == |tables|
    decreases |tables|
  {
    if tables == [] then ([], 0)
    else TableStep(Fold(tables[..|tables| - 1], analyses[..|analyses| - 1]), tables[|tables| - 1], analyses[|analyses| - 1])
  }

  /** The entries and `total_rows_analyzed` after the given tables. */
  function Analyse(tables: seq<Json>, database: Json, run: (QueryKind, string) -> QueryOutcome): (seq<Entry>, int) {
    Fold(tables, Analyses(tables, database, run))
  }

  /** An analysis whose row count is no integer. */
  predicate BadCount(a: Analysis) {
    a.AnalysisOk? && AsInt(a.rowCount).Raised?
  }

  /** The sum of the integer row counts of the successful entries. */
  function RowTotal(entries: seq<Entry>): int
    decreases |entries|
  {
    if entries == [] then 0
    else
      var e := entries[|entries| - 1];
      RowTotal(entries[..|entries| - 1]) + (if e.Analysed? && AsInt(e.rowCount).Ok? then AsInt(e.rowCount).value else 0)
  }

  lemma {:induction false} RowTotalAppend(entries: seq<Entry>, more: seq<Entry>)
    ensures RowTotal(entries + more) == RowTotal(entries) + RowTotal(more)
    decreases |more|
  {
    if more == [] {
      assert entries + more == entries;
    } else {
      var all := entries + more;
      RowTotalAppend(entries, more[..|more| - 1]);
      assert all[..|all| - 1] == entries + more[..|more| - 1];
      assert all[|all| - 1] == more[|more| - 1];
    }
  }

  /** One entry per table, in order, as long as every row count is an
      integer; each bad count adds one error entry after its table's
      successful one.  `total_rows_analyzed` is the sum of the integer row
      counts of the successful entries. */
  lemma FoldMeaning(tables: seq<Json>, analyses: seq<Analysis>)
    requires |analyses| == |tables|
    ensures var (entries, total) := Fold(tables, analyses);
      total == RowTotal(entries) && |entries| >= |tables|
    ensures (forall i :: 0 <= i < |analyses| ==> !BadCount(analyses[i])) ==>
      var entries := Fold(tables, analyses).0;
      |entries| == |tables| && forall i :: 0 <= i < |tables| ==> entries[i].table == tables[i]
  {
    FoldTotal(tables, analyses);
    if forall i :: 0 <= i < |analyses| ==> !BadCount(analyses[i]) {
      FoldTables(tables, analyses);
    }
  }

  lemma {:induction false} FoldTotal(tables: seq<Json>, analyses: seq<Analysis>)
    requires |analyses| == |tables|
    ensures var (entries, total) := Fold(tables, analyses);
      total == RowTotal(entries) && |entries| >= |tables|
    decreases |tables|
  {
    if tables != [] {
      var n := |tables| - 1;
      FoldTotal(tables[..n], analyses[..n]);
      StepTotal(Fold(tables[..n], analyses[..n]), tables[n], analyses[n]);
    }
  }

  /** A table's turn keeps the total equal to the row total of the entries. */
  lemma StepTotal(state: (seq<Entry>, int), table: Json, a: Analysis)
    requires state.1 == RowTotal(state.0)
    ensures TableStep(state, table, a).1 == RowTotal(TableStep(state, table, a).0)
  {
    var after := TableStep(state, table, a).0;
    var more := after[|state.0|..];
    RowTotalAppend(state.0, more);
    assert state.0 + more == after;
  }

  lemma {:induction false} FoldTables(tables: seq<Json>, analyses: seq<Analysis>)
    requires |analyses| == |tables|
    requires forall i :: 0 <= i < |analyses| ==> !BadCount(analyses[i])
    ensures var entries := Fold(tables, analyses).0;
      |entries| == |tables| && forall i :: 0 <= i < |tables| ==> entries[i].table == tables[i]
    decreases |tables|
  {
    if tables != [] {
      var n := |tables| - 1;
      assert forall i :: 0 <= i < n ==> analyses[..n][i] == analyses[i];
      FoldTables(tables[..n], analyses[..n]);
      var before := Fold(tables[..n], analyses[..n]).0;
      var after := Fold(tables, analyses).0;
      assert !BadCount(analyses[n]);
      forall i | 0 <= i < |tables|
        ensures after[i].table == tables[i]
      {
        if i < n {
          assert after[i] == before[i];
        }
      }
    }
  }

  /** The total for a whole list of tables, with their analyses. */
  lemma AnalyseMeaning(tables: seq<Json>, database: Json, run: (QueryKind, string) -> QueryOutcome)
    ensures var (entries, total) := Analyse(tables, database, run);
      total == RowTotal(entries) && |entries| >= |tables|
    ensures (forall i :: 0 <= i < |tables| ==> !BadCount(TableAnalysis(QualifiedName(database, tables[i]), run))) ==>
      var entries := Analyse(tables, database, run).0;
      |entries| == |tables| && forall i :: 0 <= i < |tables| ==> entries[i].table == tables[i]
  {
    FoldMeaning(tables, Analyses(tables, database, run));
  }

  /** The body of the table loop: the `try` block and its `except`. */
  method RecordAnalysis(entriesIn: seq<Entry>, totalIn: int, table: Json, a: Analysis)
    returns (entries: seq<Entry>, total: int)
    ensures (entries, total) == TableStep((entriesIn, totalIn), table, a)
  {
    entries, total := entriesIn, totalIn;
    if a.AnalysisOk? {
      entries := entries + [Analysed(table, a.rowCount, a.errorCount, a.sample)];
      var n := AsInt(a.rowCount);
      if n.Ok? {
        total := total + n.value;
      } else {
        entries := entries + [Errored(table, AddError(a.rowCount))];
      }
    } else {
      entries := entries + [Errored(table, a.error)];
    }
  }

  /** The table loop of `lambda_handler` over the tables to analyse. */
  method AnalyseTables(tables: seq<Json>, database: Json, run: (QueryKind, string) -> QueryOutcome)
    returns (entries: seq<Entry>, total: int)
    ensures (entries, total) == Analyse(tables, database, run)
  {
    ghost var analyses := Analyses(tables, database, run);
    entries, total := [], 0;
    for i := 0 to |tables|
      invariant (entries, total) == Fold(tables[..i], analyses[..i])
    {
      assert tables[..i + 1][..i] == tables[..i] && analyses[..i + 1][..i] == analyses[..i];
      var table := tables[i];
      var a := ExecuteTableAnalysisQuery(QualifiedName(database, table), run);
      assert a == analyses[i];
      entries, total := RecordAnalysis(entries, total, table, a);
    }
    assert tables[..|tables|] == tables && analyses[..|analyses|] == analyses;
  }

  // ---------------------------------------------------------------------
  // `generate_log_summary`

  datatype Summary = Summary(totalTables: nat, successfulTables: nat, logEntries: int, errorEntries: int)

  /** The number of entries without an error. */
  function SuccessCount(entries: seq<Entry>): (n: nat)
    ensures n <= |entries|
    decreases |entries|
  {
    if entries == [] then 0
    else SuccessCount(entries[..|entries| - 1]) + (if entries[|entries| - 1].Analysed? then 1 else 0)
  }

  /** The summary counters after the given entries: the log and error
      totals add up the successful entries' counts, and a count that is no
      integer makes the addition raise. */
  function SummaryFold(entries: seq<Entry>): (r: Result<Summary>)
    ensures r.Ok? ==> r.value.totalTables == |entries| && r.value.successfulTables == SuccessCount(entries)
    decreases |entries|
  {
    if entries == [] then Ok(Summary(0, 0, 0, 0))
    else
      var s :- SummaryFold(entries[..|entries| - 1]);
      var e := entries[|entries| - 1];
      var t := Summary(s.totalTables + 1, s.successfulTables + (if e.Analysed? then 1 else 0), s.logEntries, s.errorEntries);
      if e.Errored? then Ok(t)
      else
        var rows :- AsInt(e.rowCount);
        var errors :- AsInt(e.errorCount);
        Ok(t.(logEntries := t.logEntries + rows, errorEntries := t.errorEntries + errors))
  }

  /** A successful entry whose counts are integers. */
  predicate Countable(e: Entry) {
    e.Errored? || (AsInt(e.rowCount).Ok? && AsInt(e.errorCount).Ok?)
  }

  function ErrorTotal(entries: seq<Entry>): int
    decreases |entries|
  {
    if entries == [] then 0
    else
      var e := entries[|entries| - 1];
      ErrorTotal(entries[..|entries| - 1]) + (if e.Analysed? && AsInt(e.errorCount).Ok? then AsInt(e.errorCount).value else 0)
  }

  /** The summary is computed exactly when every successful entry has
      integer counts, and then its totals are those of the successful
      entries only. */
  lemma {:induction false} SummaryMeaning(entries: seq<Entry>)
    ensures SummaryFold(entries).Ok? <==> forall i :: 0 <= i < |entries| ==> Countable(entries[i])
    ensures SummaryFold(entries).Ok? ==>
      SummaryFold(entries).value.logEntries == RowTotal(entries)
      && SummaryFold(entries).value.errorEntries == ErrorTotal(entries)
    decreases |entries|
  {
    if entries != [] {
      var init := entries[..|entries| - 1];
      SummaryMeaning(init);
      assert forall i :: 0 <= i < |init| ==> init[i] == entries[i];
    }
  }

  function ErrorRate(s: Summary): Json {
    if s.logEntries > 0 then JFloat(s.errorEntries, s.logEntries) else JFloat(0, 1)
  }

  function SummaryJson(s: Summary): (j: Json)
    ensures Field(j, "error_rate") == ErrorRate(s)
    ensures s.logEntries <= 0 ==> Field(j, "error_rate") == JFloat(0, 1)
  {
    JObj(map["total_tables" := JInt(s.totalTables), "successful_tables" := JInt(s.successfulTables),
             "total_log_entries" := JInt(s.logEntries), "total_error_entries" := JInt(s.errorEntries),
             "error_rate" := ErrorRate(s)])
  }

  /** `generate_log_summary(query_results)`, with its loop. */
  method GenerateLogSummary(entries: seq<Entry>) returns (r: Result<Summary>)
    ensures r == SummaryFold(entries)
  {
    var summary := Summary(|entries|, 0, 0, 0);
    for i := 0 to |entries|
      invariant SummaryFold(entries[..i]).Ok? ==>
        summary == SummaryFold(entries[..i]).value.(totalTables := |entries|)
      invariant SummaryFold(entries[..i]).Ok?
    {
      assert entries[..i + 1][..i] == entries[..i];
      var e := entries[i];
      if e.Analysed? {
        summary := summary.(successfulTables := summary.successfulTables + 1);
        var rows := AsInt(e.rowCount);
        if rows.Raised? {
          SummaryRaisedFrom(entries, i + 1);
          return Raised;
        }
        summary := summary.(logEntries := summary.logEntries + rows.value);
        var errors := AsInt(e.errorCount);
        if errors.Raised? {
          SummaryRaisedFrom(entries, i + 1);
          return Raised;
        }
        summary := summary.(errorEntries := summary.errorEntries + errors.value);
      }
    }
    assert entries[..|entries|] == entries;
    return Ok(summary);
  }

  /** Once the summary raises, it stays raised. */
  lemma {:induction false} SummaryRaisedFrom(entries: seq<Entry>, k: nat)
    requires k <= |entries| && SummaryFold(entries[..k]).Raised?
    ensures SummaryFold(entries).Raised?
    decreases |entries| - k
  {
    if k < |entries| {
      assert entries[..k + 1][..k] == entries[..k];
      SummaryRaisedFrom(entries, k + 1);
    } else {
      assert entries[..k] == entries;
    }
  }

  // ---------------------------------------------------------------------
  // Responses

  function EntryJson(e: Entry): Json {
    match e
    case Analysed(table, rowCount, errorCount, sample) =>
      JObj(map["table" := table, "row_count" := rowCount, "error_count" := errorCount,
               "sample_data" := JArr(seq(|sample|, i requires 0 <= i < |sample| => JArr(sample[i])))])
    case Errored(table, error) => JObj(map["table" := table, "error" := JStr(error)])
  }

  function EntriesJson(entries: seq<Entry>): (j: seq<Json>)
    ensures |j| == |entries| && forall i :: 0 <= i < |entries| ==> j[i] == EntryJson(entries[i])
  {
    seq(|entries|, i requires 0 <= i < |entries| => EntryJson(entries[i]))
  }

  /** The counts the evidence reports on the success path. */
  datatype Details = Details(database: Json, tablesProcessed: nat, successfulQueries: nat, totalRows: int)

  /** The evidence note: the verdict, then successful over processed tables
      when there are counts, then the rows analysed when non-zero. */
  function Note(success: bool, details: Option<Details>): (note: string)
    ensures details.None? ==> note == "Athena分析" + (if success then "成功" else "失敗")
    ensures details.Some? && details.value.totalRows == 0 ==>
      note == "Athena分析" + (if success then "成功" else "失敗") + ": " + NatToString(details.value.successfulQueries)
              + "/" + NatToString(details.value.tablesProcessed) + "テーブル"
  {
    var head := "Athena分析" + (if success then "成功" else "失敗");
    if details.None? then head
    else
      var d := details.value;
      var counts := head + ": " + NatToString(d.successfulQueries) + "/" + NatToString(d.tablesProcessed) + "テーブル";
      if d.totalRows != 0 then counts + ", " + IntToString(d.totalRows) + "行分析" else counts
  }

  /** `create_evidence(batch_id, 'athena_query', success, details)` */
  function EvidenceJson(batchId: Json, success: bool, details: Option<Details>, now: string): (e: Json)
    ensures Field(e, "ok") == JBool(success) && Field(e, "step") == JStr("athena_query")
    ensures Field(e, "note") == JStr(Note(success, details))
    ensures details.Some? ==> Field(Field(e, "load"), "inserted_rows") == JInt(details.value.totalRows)
  {
    var d := if details.Some? then details.value else Details(JStr(""), 0, 0, 0);
    JObj(map[
      "batch_id" := batchId,
      "test_id" := JStr(""),
      "flow" := JStr("log-aggregation-athena-pipeline"),
      "step" := JStr("athena_query"),
      "input" := JObj(map["database" := d.database, "tables" := JInt(d.tablesProcessed)]),
      "output" := JObj(map["analyzed_rows" := JInt(d.totalRows), "successful_queries" := JInt(d.successfulQueries)]),
      "load" := JObj(map["table" := JStr("athena_analysis_results"), "inserted_rows" := JInt(d.totalRows),
                         "dropped_rows" := JInt(0), "reason" := JStr("Athena log analysis completed")]),
      "ok" := JBool(success),
      "ts" := JStr(now),
      "note" := JStr(Note(success, details))])
  }

  function InvalidResponse(batchId: Json, now: string): (r: Json)
    ensures Field(r, "statusCode") == JInt(400) && Field(r, "success") == JBool(false)
  {
    JObj(map["statusCode" := JInt(400), "batch_id" := batchId, "success" := JBool(false),
             "error" := JStr("対象テーブルがありません"), "evidence" := EvidenceJson(batchId, false, None, now)])
  }

  function ErrorResponse(batchId: Json, errText: string, now: string): (r: Json)
    ensures Field(r, "statusCode") == JInt(500) && Field(r, "success") == JBool(false)
  {
    JObj(map["statusCode" := JInt(500), "batch_id" := batchId, "success" := JBool(false),
             "error" := JStr("Athena クエリ実行エラー: " + errText), "evidence" := EvidenceJson(batchId, false, None, now)])
  }

  function AnalysedResponse(batchId: Json, database: Json, entries: seq<Entry>, summary: Summary, total: int, now: string)
    : (r: Json)
    ensures var ok := SuccessCount(entries) > 0;
      Field(r, "statusCode") == JInt(if ok then 200 else 206) && Field(r, "success") == JBool(ok)
    ensures Field(r, "total_rows_analyzed") == JInt(total) && Field(r, "successful_queries") == JInt(SuccessCount(entries))
  {
    var successful := SuccessCount(entries);
    var ok := successful > 0;
    JObj(map["statusCode" := JInt(if ok then 200 else 206), "batch_id" := batchId, "success" := JBool(ok),
             "database_name" := database,
             "query_results" := JArr(EntriesJson(entries)),
             "log_summary" := SummaryJson(summary), "total_rows_analyzed" := JInt(total),
             "successful_queries" := JInt(successful),
             "evidence" := EvidenceJson(batchId, ok, Some(Details(database, |entries|, successful, total)), now)])
  }

  /** The response carries every entry in table order and the summary
      built from them. */
  lemma AnalysedResponseBody(batchId: Json, database: Json, entries: seq<Entry>, summary: Summary, total: int, now: string)
    ensures var r := AnalysedResponse(batchId, database, entries, summary, total, now);
      Field(r, "query_results") == JArr(EntriesJson(entries)) && Field(r, "log_summary") == SummaryJson(summary)
  {
  }

  /** `tables_created` as the loop sees it: a list gives its elements and a
      string its characters; any other value makes the slicing raise. */
  function Tables(tables: Json): (r: Result<seq<Json>>)
    ensures r.Ok? <==> tables.JArr? || tables.JStr?
    ensures tables.JArr? ==> r == Ok(tables.items)
    ensures tables.JStr? ==>
      (r.Ok? && |r.value| == |tables.s| && forall i :: 0 <= i < |tables.s| ==> r.value[i] == JStr([tables.s[i]]))
  {
    match tables
    case JArr(a) => Ok(a)
    case JStr(s) => Ok(Chars(s))
    case _ => Raised
  }

  function FirstTables(tables: seq<Json>): (ts: seq<Json>)
    ensures |ts| == if |tables| <= MaxTables then |tables| else MaxTables
    ensures ts <= tables
  {
    if |tables| <= MaxTables then tables else tables[..MaxTables]
  }

  function BatchId(event: map<string, Json>): Json {
    Lookup(event, "batch_id", JNull)
  }

  function Database(event: map<string, Json>): Json {
    Lookup(event, "database_name", JStr("log_analysis_db"))
  }

  function TablesCreated(event: map<string, Json>): Json {
    Lookup(event, "tables_created", JArr([]))
  }

  /** The response once the tables are analysed: the summary, then the
      verdict; a summary that raises ends in the outer handler. */
  function Report(batchId: Json, database: Json, entries: seq<Entry>, total: int, errText: string, now: string): (r: Json)
    ensures Field(r, "statusCode") != JInt(400)
    ensures SummaryFold(entries).Raised? ==> Field(r, "statusCode") == JInt(500)
    ensures SummaryFold(entries).Ok? ==>
      && Field(r, "total_rows_analyzed") == JInt(total)
      && Field(r, "statusCode") == JInt(if SuccessCount(entries) > 0 then 200 else 206)
      && Field(r, "success") == JBool(SuccessCount(entries) > 0)
  {
    match SummaryFold(entries)
    case Raised => ErrorResponse(batchId, errText, now)
    case Ok(summary) => AnalysedResponse(batchId, database, entries, summary, total, now)
  }

  /** `lambda_handler(event, context)` */
  function Execute(event: map<string, Json>, run: (QueryKind, string) -> QueryOutcome, errText: string, now: string): Json {
    var batchId, database, tables := BatchId(event), Database(event), TablesCreated(event);
    if !Truthy(tables) then InvalidResponse(batchId, now)
    else
      match Tables(tables)
      case Raised => ErrorResponse(batchId, errText, now)
      case Ok(ts) =>
        var (entries, total) := Analyse(FirstTables(ts), database, run);
        Report(batchId, database, entries, total, errText, now)
  }

  /** No tables gives 400.  For a list of tables whose row and error counts
      are integers, one entry per analysed table (the first three) comes
      back in order, the total is the sum of the successful row counts, and
      the stage succeeds (200, else 206) exactly when some table was
      analysed without error. */
  lemma ExecuteMeaning(event: map<string, Json>, run: (QueryKind, string) -> QueryOutcome, errText: string, now: string)
    ensures Field(Execute(event, run, errText, now), "statusCode") == JInt(400) <==> !Truthy(TablesCreated(event))
    ensures var tables := TablesCreated(event);
      tables.JArr? && tables.items != [] ==>
        var first := FirstTables(tables.items);
        var (entries, total) := Analyse(first, Database(event), run);
        var r := Execute(event, run, errText, now);
        ((forall i :: 0 <= i < |entries| ==> Countable(entries[i])) ==>
          && Field(r, "total_rows_analyzed") == JInt(RowTotal(entries))
          && (Field(r, "success") == JBool(true) <==> exists i :: 0 <= i < |entries| && entries[i].Analysed?)
          && (Field(r, "statusCode") == JInt(200) <==> exists i :: 0 <= i < |entries| && entries[i].Analysed?))
        && ((forall i :: 0 <= i < |first| ==> !BadCount(TableAnalysis(QualifiedName(Database(event), first[i]), run)))
            ==> |entries| == |first|)
  {
    var tables := TablesCreated(event);
    if tables.JArr? && tables.items != [] {
      var first := FirstTables(tables.items);
      AnalyseMeaning(first, Database(event), run);
      var (entries, total) := Analyse(first, Database(event), run);
      SummaryMeaning(entries);
      SuccessCountPositive(entries);
      assert Tables(tables) == Ok(tables.items);
      assert Execute(event, run, errText, now) == Report(BatchId(event), Database(event), entries, total, errText, now);
    }
  }

  lemma {:induction false} SuccessCountPositive(entries: seq<Entry>)
    ensures SuccessCount(entries) > 0 <==> exists i :: 0 <= i < |entries| && entries[i].Analysed?
    decreases |entries|
  {
    if entries != [] {
      var init := entries[..|entries| - 1];
      SuccessCountPositive(init);
      if exists i :: 0 <= i < |init| && init[i].Analysed? {
        var i :| 0 <= i < |init| && init[i].Analysed?;
        assert entries[i].Analysed?;
      }
      if exists i :: 0 <= i < |entries| && entries[i].Analysed? {
        var i :| 0 <= i < |entries| && entries[i].Analysed?;
        if i < |init| {
          assert init[i].Analysed?;
        }
      }
    }
  }

  /** A row count that is no integer leaves a successful entry and an error
      entry for the same table, and the summary then raises: the stage
      answers 500. */
  lemma BadCountFails(event: map<string, Json>, run: (QueryKind, string) -> QueryOutcome, errText: string, now: string)
    requires TablesCreated(event).JArr? && |TablesCreated(event).items| == 1
    requires BadCount(TableAnalysis(QualifiedName(Database(event), TablesCreated(event).items[0]), run))
    ensures |Analyse(TablesCreated(event).items, Database(event), run).0| == 2
    ensures Field(Execute(event, run, errText, now), "statusCode") == JInt(500)
  {
    var ts := TablesCreated(event).items;
    var a := TableAnalysis(QualifiedName(Database(event), ts[0]), run);
    assert Analyses(ts, Database(event), run) == [a];
    SingleBadCount(ts, a);
    assert FirstTables(ts) == ts && Tables(TablesCreated(event)) == Ok(ts);
    var (entries, total) := Analyse(ts, Database(event), run);
    assert Execute(event, run, errText, now) == Report(BatchId(event), Database(event), entries, total, errText, now);
  }

  lemma SingleBadCount(ts: seq<Json>, a: Analysis)
    requires |ts| == 1 && BadCount(a)
    ensures |Fold(ts, [a]).0| == 2 && SummaryFold(Fold(ts, [a]).0).Raised?
  {
    assert ts[..0] == [] && [a][..0] == [];
    assert Fold(ts, [a]) == TableStep(([], 0), ts[0], a);
    var entries := Fold(ts, [a]).0;
    assert entries == [Analysed(ts[0], a.rowCount, a.errorCount, a.sample), Errored(ts[0], AddError(a.rowCount))];
    assert !Countable(entries[0]);
    SummaryMeaning(entries);
  }

  /** `lambda_handler`, with the table loop. */
  method LambdaHandler(event: map<string, Json>, run: (QueryKind, string) -> QueryOutcome, errText: string, now: string)
    returns (r: Json)
    ensures r == Execute(event, run, errText, now)
  {
    var batchId, database, tables := BatchId(event), Database(event), TablesCreated(event);
    if !Truthy(tables) {
      return InvalidResponse(batchId, now);
    }
    var ts := Tables(tables);
    if ts.Raised? {
      return ErrorResponse(batchId, errText, now);
    }
    var entries, total := AnalyseTables(FirstTables(ts.value), database, run);
    var summary := GenerateLogSummary(entries);
    if summary.Raised? {
      return ErrorResponse(batchId, errText, now);
    }
    return AnalysedResponse(batchId, database, entries, summary.value, total, now);
  }
}
