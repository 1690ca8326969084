/**
 * What the tools do with what the database sends back: rows as
 * `RealDictCursor` dictionaries, the outcome a tool returns (a fixed message,
 * the rows, a rows-and-summary pair, a report, an error text), the
 * first-versus-last trend of the trend tools and the column sums and maxima
 * of their summaries.
 */
module Shape {
  import opened Sql

  // ---------------------------------------------------------------------
  // Rows and the database
  // ---------------------------------------------------------------------

  /** A column value: numbers (int, float, Decimal) as reals, text, or SQL NULL. */
  datatype Value = Num(x: real) | Str(s: string) | Null

  /** One `RealDictCursor` row: column alias to value. */
  type Row = map<string, Value>

  /** What the server answers to a fully bound statement. */
  datatype Answer = Answered(rows: seq<Row>) | Refused(message: string)

  /** The database as the tools see it: the bound statement in, rows or an error out. */
  type Server = seq<Piece> -> Answer

  /** The exception that sends a tool into its `except Exception` branch. */
  datatype Fault =
    | ArityError               // psycopg2: placeholders and parameters do not match
    | DatabaseError(message: string)
    | KeyError(key: string)    // `row['k']` on a missing column
    | TypeError                // arithmetic, comparison or formatting on a NULL / text value
    | NameError(name: string)  // a name that was never assigned
    | AttributeError           // a method called on None, such as `None.lower()`

  /** A fault the rows themselves cause, as opposed to the driver or the server. */
  predicate DataFault(f: Fault) { f.KeyError? || f == TypeError }

  /** The result of `cursor.execute(sql, params)` followed by `fetchall()`. */
  datatype Fetch = Fetched(rows: seq<Row>) | Raised(fault: Fault)

  /**
   * psycopg2 binds the parameters first; only a statement that binds
   * reaches the server. A statement without placeholders is sent without
   * its parameters.
   */
  function Execute(server: Server, sql: string, params: seq<Param>): (r: Fetch)
    ensures r == Raised(ArityError) <==> Holes(sql) != |params| && Holes(sql) != 0
    ensures Holes(sql) == |params| ==> r == Answer2Fetch(server(Fill(sql, params)))
    ensures Holes(sql) == 0 ==> r == Answer2Fetch(server(Fill(sql, [])))
  {
    match Bind(sql, params)
    case None => Raised(ArityError)
    case Some(bound) => Answer2Fetch(server(bound))
  }

  function Answer2Fetch(a: Answer): (r: Fetch)
    ensures r != Raised(ArityError)
  {
    match a
    case Answered(rows) => Fetched(rows)
    case Refused(m) => Raised(DatabaseError(m))
  }

  /** A well-formed statement always binds, and the server sees it filled. */
  lemma StmtExecutes(server: Server, q: Stmt)
    requires WellFormed(q)
    ensures Execute(server, Text(q), Params(q)) == Answer2Fetch(server(Filled(q)))
  {
    StmtBinds(q);
  }

  /** `cursor.fetchone()` after a successful execute. */
  function FirstRow(rows: seq<Row>): (r: Option<Row>)
    ensures r.None? <==> rows == []
    ensures r.Some? ==> r.value == rows[0]
  {
    if rows == [] then None else Some(rows[0])
  }

  // ---------------------------------------------------------------------
  // What a tool returns
  // ---------------------------------------------------------------------

  /**
   * A tool's return value. `Report` carries the values a formatted text
   * report is printed from; its layout is not modelled.
   */
  datatype Outcome<R> =
    | Message(text: string)                    // a fixed "no data" or validation message
    | Rows(rows: seq<Row>)                     // the fetched rows themselves
    | RowsAndSummary(rows: seq<Row>, summary: Row)
    | OneRow(row: Row)
    | Report(report: R)
    | Failed(prefix: string, fault: Fault)     // `f"{prefix}{str(e)}"`
    | NoValue                                  // the function falls off its end: Python's None

  /** The report type of a tool that returns no report. */
  datatype NoReport = NoReport

  /**
   * The shape of a listing tool: an error is reported with the tool's
   * prefix, no rows give the tool's fixed message, and rows are returned
   * as fetched.
   */
  function RowsOrMessage(prefix: string, none: string, main: Fetch): (r: Outcome<NoReport>)
    ensures r.Failed? <==> main.Raised?
    ensures r.Failed? ==> r.prefix == prefix && r.fault == main.fault
    ensures r.Message? <==> main == Fetched([])
    ensures r.Message? ==> r.text == none
    ensures r.Rows? <==> main.Fetched? && main.rows != []
    ensures r.Rows? ==> r.rows == main.rows
  {
    match main
    case Raised(f) => Failed(prefix, f)
    case Fetched(rows) => if rows == [] then Message(none) else Rows(rows)
  }

  /** `summary_results[0] if summary_results else {}`. */
  function SummaryData(rows: seq<Row>): (r: Row)
    ensures rows == [] ==> r == map[]
    ensures rows != [] ==> r == rows[0]
  {
    if rows == [] then map[] else rows[0]
  }

  // ---------------------------------------------------------------------
  // Reading values: `row.get(k, 0)`, `row[k]`, `float(...)`
  // ---------------------------------------------------------------------

  function Get(row: Row, key: string, default: Value): (v: Value)
    ensures key in row ==> v == row[key]
    ensures key !in row ==> v == default
  {
    if key in row then row[key] else default
  }

  /** `float(v)`: numbers convert, NULL (None) raises. */
  function Float(v: Value): (r: Result<real>)
    ensures r.Ok? <==> v.Num?
    ensures v.Num? ==> r.value == v.x
    ensures r.Err? ==> r.fault == TypeError
  {
    match v
    case Num(x) => Ok(x)
    case _ => Err(TypeError)
  }

  datatype Result<T> = Ok(value: T) | Err(fault: Fault)

  // ---------------------------------------------------------------------
  // First-versus-last trend
  // ---------------------------------------------------------------------

  /** The trend block: first and last period values, percent change and direction. */
  datatype Trend = Trend(first: real, last: real, percentChange: real, increasing: bool)

  /**
   * With more than one period and a positive first value: the percent change
   * from first to last, "increasing" exactly when the last value is strictly
   * greater. Otherwise there is no trend block.
   */
  function TrendOf(rows: seq<Row>, key: string): (r: Result<Option<Trend>>)
    ensures |rows| <= 1 ==> r == Ok(None)
    ensures r.Ok? <==>
      |rows| <= 1 || (Get(rows[0], key, Num(0.0)).Num? && Get(rows[|rows| - 1], key, Num(0.0)).Num?)
    ensures r.Err? ==> r.fault == TypeError
  {
    if |rows| <= 1 then Ok(None)
    else
      var f := Float(Get(rows[0], key, Num(0.0)));
      var l := Float(Get(rows[|rows| - 1], key, Num(0.0)));
      if f.Err? then Err(f.fault)
      else if l.Err? then Err(l.fault)
      else if f.value > 0.0 then
        Ok(Some(Trend(f.value, l.value, (l.value - f.value) / f.value * 100.0, l.value > f.value)))
      else Ok(None)
  }

  /**
   * The direction agrees with the sign of the percent change, equal values
   * read "decreasing", and the percent change carries the first value to
   * the last one.
   */
  lemma TrendMeaning(rows: seq<Row>, key: string)
    requires TrendOf(rows, key).Ok? && TrendOf(rows, key).value.Some?
    ensures var t := TrendOf(rows, key).value.value;
      && |rows| >= 2 && t.first > 0.0
      && Get(rows[0], key, Num(0.0)) == Num(t.first)
      && Get(rows[|rows| - 1], key, Num(0.0)) == Num(t.last)
      && (t.increasing <==> t.last > t.first)
      && (t.increasing <==> t.percentChange > 0.0)
      && (t.first == t.last ==> !t.increasing && t.percentChange == 0.0)
      && t.first + t.first * t.percentChange / 100.0 == t.last
  {
    var t := TrendOf(rows, key).value.value;
    var d := t.last - t.first;
    assert t.percentChange == d / t.first * 100.0;
    assert t.first * (d / t.first) == d;
    if t.increasing {
      assert d > 0.0;
      assert d / t.first > 0.0;
    } else {
      assert d <= 0.0;
      assert d / t.first <= 0.0;
    }
  }

  /** No trend block exactly when there are too few periods or the first value is not positive. */
  lemma TrendAbsent(rows: seq<Row>, key: string)
    requires |rows| >= 2
    requires Get(rows[0], key, Num(0.0)).Num? && Get(rows[|rows| - 1], key, Num(0.0)).Num?
    ensures TrendOf(rows, key) == Ok(None) <==> Get(rows[0], key, Num(0.0)).x <= 0.0
  {
  }

  /** A key no row holds reads as 0 in every row, so there is never a trend block. */
  lemma TrendMissingKey(rows: seq<Row>, key: string)
    requires forall i | 0 <= i < |rows| :: key !in rows[i]
    ensures TrendOf(rows, key) == Ok(None)
  {
    if |rows| > 1 {
      assert key !in rows[0];
    }
  }

  // ---------------------------------------------------------------------
  // Column sums and maxima over the fetched rows
  // ---------------------------------------------------------------------

  /** `row[key]` as a number: a missing column is a KeyError, NULL or text a TypeError. */
  function Column(row: Row, key: string): (r: Result<real>)
    ensures r.Ok? <==> key in row && row[key].Num?
    ensures r.Err? ==> DataFault(r.fault)
  {
    if key !in row then Err(KeyError(key)) else Float(row[key])
  }

  /** `sum(row[key] for row in rows)`. */
  function ColumnSum(rows: seq<Row>, key: string): (r: Result<real>)
    ensures r.Ok? <==> forall i | 0 <= i < |rows| :: key in rows[i] && rows[i][key].Num?
    ensures r.Err? ==> DataFault(r.fault)
    decreases |rows|
  {
    if rows == [] then Ok(0.0)
    else
      var s := ColumnSum(rows[..|rows| - 1], key);
      var c := Column(rows[|rows| - 1], key);
      if s.Err? then s
      else if c.Err? then Err(c.fault)
      else Ok(s.value + c.value)
  }

  /** The sum of a run of periods is the sum of its two parts. */
  lemma {:induction false} ColumnSumSplit(a: seq<Row>, b: seq<Row>, key: string)
    requires ColumnSum(a, key).Ok? && ColumnSum(b, key).Ok?
    ensures ColumnSum(a + b, key) == Ok(ColumnSum(a, key).value + ColumnSum(b, key).value)
    decreases |b|
  {
    if b == [] {
      assert a + b == a;
    } else {
      var init := b[..|b| - 1];
      assert (a + b)[..|a + b| - 1] == a + init;
      assert (a + b)[|a + b| - 1] == b[|b| - 1];
      ColumnSumSplit(a, init, key);
    }
  }

  /** `max(row[key] for row in rows)` over numeric values; at least one row. */
  function ColumnMax(rows: seq<Row>, key: string): (r: Result<real>)
    requires rows != []
    ensures r.Ok? ==> exists i | 0 <= i < |rows| :: Column(rows[i], key) == Ok(r.value)
    ensures r.Ok? ==> forall i | 0 <= i < |rows| :: Column(rows[i], key).Ok? && Column(rows[i], key).value <= r.value
    ensures r.Ok? <==> forall i | 0 <= i < |rows| :: key in rows[i] && rows[i][key].Num?
    ensures r.Err? ==> DataFault(r.fault)
    decreases |rows|
  {
    var c := Column(rows[|rows| - 1], key);
    if |rows| == 1 then c
    else
      var m := ColumnMax(rows[..|rows| - 1], key);
      if m.Err? then m
      else if c.Err? then Err(c.fault)
      else Ok(if c.value > m.value then c.value else m.value)
  }

  // ---------------------------------------------------------------------
  // Report lines: the columns an f-string reads, and what makes it raise
  // ---------------------------------------------------------------------

  /**
   * How a report reads one column: `row[k]` shown as is, `row[k]` under a
   * numeric format (`:,`, `:.2f`, or multiplied first), `row[k] or 0` under
   * a numeric format, or `row.get(k, 0)` under a numeric format.
   */
  datatype Field = Shown(key: string) | Number(key: string) | NumberOrZero(key: string) | GotNumber(key: string)

  /** The exception reading the field raises, if any. */
  function FieldFault(row: Row, f: Field): (r: Option<Fault>)
    ensures r.Some? ==> DataFault(r.value)
    ensures !f.GotNumber? && f.key !in row ==> r == Some(KeyError(f.key))
    ensures r.None? <==>
      if f.GotNumber? then Get(row, f.key, Num(0.0)).Num?
      else f.key in row && (f.Number? ==> row[f.key].Num?) && (f.NumberOrZero? ==> !row[f.key].Str? || row[f.key].s == "")
  {
    match f
    case Shown(k) => if k in row then None else Some(KeyError(k))
    case Number(k) => if Column(row, k).Ok? then None else Some(Column(row, k).fault)
    case NumberOrZero(k) =>
      if k !in row then Some(KeyError(k))
      else if row[k].Str? && row[k].s != "" then Some(TypeError)
      else None
    case GotNumber(k) => if Get(row, k, Num(0.0)).Num? then None else Some(TypeError)
  }

  /** The exception of the first field, in print order, that raises. */
  function FieldsFault(row: Row, fields: seq<Field>): (r: Option<Fault>)
    ensures r.None? <==> forall i | 0 <= i < |fields| :: FieldFault(row, fields[i]).None?
    ensures r.Some? ==> DataFault(r.value)
    ensures r.Some? ==> exists i | 0 <= i < |fields| :: FieldFault(row, fields[i]) == r
    decreases |fields|
  {
    if fields == [] then None
    else if FieldFault(row, fields[0]).Some? then FieldFault(row, fields[0])
    else
      assert forall i | 1 <= i < |fields| :: fields[i] == fields[1..][i - 1];
      FieldsFault(row, fields[1..])
  }

  /** The exception of the first row whose line raises. */
  function RowsFault(rows: seq<Row>, fields: seq<Field>): Option<Fault>
    decreases |rows|
  {
    if rows == [] then None
    else if FieldsFault(rows[0], fields).Some? then FieldsFault(rows[0], fields)
    else RowsFault(rows[1..], fields)
  }

  /** Every line is written exactly when no row raises; otherwise a row's own fault is raised. */
  lemma {:induction false} RowsFaultMeaning(rows: seq<Row>, fields: seq<Field>)
    ensures RowsFault(rows, fields).None? <==> forall i | 0 <= i < |rows| :: FieldsFault(rows[i], fields).None?
    ensures RowsFault(rows, fields).Some? ==>
      DataFault(RowsFault(rows, fields).value)
      && exists i | 0 <= i < |rows| :: FieldsFault(rows[i], fields) == RowsFault(rows, fields)
    decreases |rows|
  {
    if rows != [] {
      RowsFaultMeaning(rows[1..], fields);
      assert forall i | 1 <= i < |rows| :: rows[i] == rows[1..][i - 1];
      if FieldsFault(rows[0], fields).None? && RowsFault(rows, fields).Some? {
        var i :| 0 <= i < |rows[1..]| && FieldsFault(rows[1..][i], fields) == RowsFault(rows, fields);
        assert FieldsFault(rows[i + 1], fields) == RowsFault(rows, fields);
      }
    }
  }

  /** With the first `i` lines written, the outcome is the fault of line `i`, or none after the last. */
  lemma {:induction false} RowsFaultFrom(rows: seq<Row>, fields: seq<Field>, i: nat)
    requires i <= |rows|
    requires forall j | 0 <= j < i :: FieldsFault(rows[j], fields).None?
    ensures i < |rows| && FieldsFault(rows[i], fields).Some? ==> RowsFault(rows, fields) == FieldsFault(rows[i], fields)
    ensures i == |rows| ==> RowsFault(rows, fields) == None
    decreases i
  {
    if i > 0 {
      assert forall j | 0 <= j < i - 1 :: rows[1..][j] == rows[j + 1];
      RowsFaultFrom(rows[1..], fields, i - 1);
    }
  }

  /** The `for row in results: output += ...` loop: one line per row, stopped by the first that raises. */
  method WriteLines(rows: seq<Row>, fields: seq<Field>) returns (fault: Option<Fault>)
    ensures fault == RowsFault(rows, fields)
    ensures fault.None? <==> forall i | 0 <= i < |rows| :: FieldsFault(rows[i], fields).None?
  {
    var i := 0;
    while i < |rows|
      invariant 0 <= i <= |rows|
      invariant forall j | 0 <= j < i :: FieldsFault(rows[j], fields).None?
    {
      var line := FieldsFault(rows[i], fields);
      if line.Some? {
        RowsFaultFrom(rows, fields, i);
        return line;
      }
      i := i + 1;
    }
    RowsFaultFrom(rows, fields, i);
    fault := None;
  }

  // ---------------------------------------------------------------------
  // `combine_results_as_dict`
  // ---------------------------------------------------------------------

  datatype Combined = Combined(summary: Option<Row>, results: Option<seq<Row>>, totalCount: nat, hasData: bool)

  /** `{"summary": ..., "results": ..., "total_count": len or 0, "has_data": bool(results)}`. */
  function CombineResultsAsDict(results: Option<seq<Row>>, summary: Option<Row>): (c: Combined)
    ensures c.summary == summary && c.results == results
    ensures c.hasData <==> c.totalCount > 0
    ensures c.hasData <==> results.Some? && results.value != []
    ensures c.hasData ==> c.totalCount == |results.value|
  {
    var has := results.Some? && results.value != [];
    Combined(summary, results, if has then |results.value| else 0, has)
  }
}
