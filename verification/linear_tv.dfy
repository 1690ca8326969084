/**
 * The linear TV tools (strands_tools/Linear_tv_ads.py): the network and
 * program analysis with its optional summary, the period trends with their
 * report, and the network comparison.
 */
module LinearTv {
  import opened Sql
  import opened Filters
  import opened Shape

  // ---------------------------------------------------------------------
  // Condition texts
  // ---------------------------------------------------------------------

  /** `conversions * 100.0 / NULLIF(impressions, 0)`, the per-record conversion rate. */
  const RateExpr := "conversions * 100.0" + " / NULLIF(impressions, 0)"

  const NetworkIs := "UPPER(network) = UPPER(" + P + ")"
  const ProgramLike := "program ILIKE " + P
  const ImpressionsAtLeast := "impressions >= " + P
  const ReachAtLeast := "reach >= " + P
  const RateAtLeast := "(" + RateExpr + ") >= " + P

  const NetworkLike := "LOWER(network) LIKE LOWER(" + P + ")"
  const ProgramLikeLower := "LOWER(program) LIKE LOWER(" + P + ")"
  const SourceLike := "LOWER(source) LIKE LOWER(" + P + ")"

  const Positive := "impressions > 0" + " AND reach > 0"
  const EitherNetwork := "network ILIKE LOWER(" + P + ") OR network ILIKE LOWER(" + P + ")"

  lemma RateExprPlain()
    ensures Plain(RateExpr)
  {
    assert Plain("conversions * 100.0");
    assert Plain(" / NULLIF(impressions, 0)");
  }

  lemma AnalyzeCondTexts()
    ensures OneHole(DateFrom) && OneHole(DateTo) && OneHole(NetworkIs) && OneHole(ProgramLike)
    ensures OneHole(ImpressionsAtLeast) && OneHole(ReachAtLeast) && OneHole(RateAtLeast)
  {
    WindowTexts(None, "days");
    OneSlot("UPPER(network) = UPPER(", ")");
    OneSlot("program ILIKE ", "");
    assert ProgramLike == "program ILIKE " + P + "";
    ThresholdTexts();
  }

  lemma ThresholdTexts()
    ensures OneHole(ImpressionsAtLeast) && OneHole(ReachAtLeast) && OneHole(RateAtLeast)
  {
    OneSlot("impressions >= ", "");
    assert ImpressionsAtLeast == "impressions >= " + P + "";
    OneSlot("reach >= ", "");
    assert ReachAtLeast == "reach >= " + P + "";
    RateExprPlain();
    OneSlot("(" + RateExpr + ") >= ", "");
    assert RateAtLeast == "(" + RateExpr + ") >= " + P + "";
  }

  lemma TrendCondTexts()
    ensures Sound(Cond(NetworkLike, [PNull])) && Sound(Cond(ProgramLikeLower, [PNull]))
    ensures Sound(Cond(SourceLike, [PNull]))
  {
    OneSlot("LOWER(network) LIKE LOWER(", ")");
    OneSlot("LOWER(program) LIKE LOWER(", ")");
    OneSlot("LOWER(source) LIKE LOWER(", ")");
  }

  lemma ComparisonCondTexts()
    ensures Sound(Cond(Positive, [])) && Sound(Cond(EitherNetwork, [PNull, PNull]))
  {
    assert Plain("impressions > 0") && Plain(" AND reach > 0");
    PlainHoles(Positive);
    TwoSlots("network ILIKE LOWER(", ") OR network ILIKE LOWER(", ")");
  }

  // ---------------------------------------------------------------------
  // linear_tv_analyze_tv_network
  // ---------------------------------------------------------------------

  /** The tool's arguments; `None` is an argument passed as None, defaults being filled by the caller. */
  datatype AnalyzeArgs = AnalyzeArgs(
    startDate: Option<string>, endDate: Option<string>, network: Option<string>,
    programKeyword: Option<string>, minImpressions: Option<int>, minReach: Option<int>,
    minConversionRate: Option<real>, sortBy: Option<string>, sortOrder: Option<string>,
    limit: Option<int>, includeSummary: bool)

  /** The filters in the order the tool tries them. */
  function AnalyzeFilters(a: AnalyzeArgs): seq<Filter> {
    [TextF(DateFrom, a.startDate), TextF(DateTo, a.endDate), TextF(NetworkIs, a.network),
     LikeF(ProgramLike, a.programKeyword), IntF(ImpressionsAtLeast, a.minImpressions),
     IntF(ReachAtLeast, a.minReach), RealF(RateAtLeast, a.minConversionRate)]
  }

  function AnalyzeConds(a: AnalyzeArgs): seq<Cond> {
    Conds(AnalyzeFilters(a))
  }

  /** `sort_mapping`. */
  const AnalyzeSorts: map<string, string> := map[
    "date" := "date", "impressions" := "impressions", "reach" := "reach",
    "frequency" := "frequency", "conversions" := "conversions", "conversion_rate" := RateExpr]

  /** `sort_mapping.get(sort_by, "date")`. */
  function SortField(sortBy: Option<string>): string {
    if sortBy.Some? && sortBy.value in AnalyzeSorts then AnalyzeSorts[sortBy.value] else "date"
  }

  /**
   * `"ASC" if sort_order.lower() == "asc" else "DESC"`; a None order has no
   * `lower` and raises.
   */
  function OrderWord(sortOrder: Option<string>): Result<string> {
    if sortOrder.None? then Err(AttributeError)
    else if Lower(sortOrder.value) == "asc" then Ok("ASC")
    else Ok("DESC")
  }

  /** The main query for a given order word: columns, filters, `ORDER BY {sort_field} {order} LIMIT %s`. */
  function AnalyzeStmt(a: AnalyzeArgs, order: string): Stmt {
    Stmt(AnalyzeColumns, " WHERE ", AnalyzeConds(a), "", [],
         " ORDER BY " + SortField(a.sortBy) + " " + order + " LIMIT ",
         Some(IntParam(a.limit)))
  }

  /** The summary query: the same filters over the aggregate columns, no ORDER BY, no limit. */
  function AnalyzeSummaryStmt(a: AnalyzeArgs): Stmt {
    Stmt(SummaryColumns, " WHERE ", AnalyzeConds(a), "", [], "", None)
  }

  /**
   * The filter block of the tool: each truthy argument appends its
   * condition text and its value to the two lists, in argument order.
   */
  method AnalyzeWhere(a: AnalyzeArgs) returns (whereConditions: seq<string>, params: seq<Param>)
    ensures whereConditions == Texts(AnalyzeConds(a)) && params == Args(AnalyzeConds(a))
  {
    ghost var done: seq<Filter>;
    whereConditions, params, done := AnalyzeMatches(a);
    whereConditions, params, done := AppendFilter(IntF(ImpressionsAtLeast, a.minImpressions), whereConditions, params, [], done);
    whereConditions, params, done := AppendFilter(IntF(ReachAtLeast, a.minReach), whereConditions, params, [], done);
    whereConditions, params, done := AppendFilter(RealF(RateAtLeast, a.minConversionRate), whereConditions, params, [], done);
    assert done == AnalyzeFilters(a);
  }

  /** The date, network and program steps of the filter block. */
  method AnalyzeMatches(a: AnalyzeArgs) returns (whereConditions: seq<string>, params: seq<Param>, ghost done: seq<Filter>)
    ensures done == [TextF(DateFrom, a.startDate), TextF(DateTo, a.endDate), TextF(NetworkIs, a.network),
                     LikeF(ProgramLike, a.programKeyword)]
    ensures whereConditions == Texts(Conds(done)) && params == [] + Args(Conds(done))
  {
    whereConditions, params, done := [], [], [];
    whereConditions, params, done := AppendFilter(TextF(DateFrom, a.startDate), whereConditions, params, [], done);
    whereConditions, params, done := AppendFilter(TextF(DateTo, a.endDate), whereConditions, params, [], done);
    assert done == [TextF(DateFrom, a.startDate), TextF(DateTo, a.endDate)];
    whereConditions, params, done := AppendFilter(TextF(NetworkIs, a.network), whereConditions, params, [], done);
    whereConditions, params, done := AppendFilter(LikeF(ProgramLike, a.programKeyword), whereConditions, params, [], done);
  }

  /**
   * Builds the main query as the tool does: the filter block, WHERE when
   * there are conditions, then the ORDER BY with the bound limit last. The
   * order step is where a None order raises, before anything is executed.
   */
  method BuildAnalyzeQuery(a: AnalyzeArgs)
    returns (query: string, params: seq<Param>, whereConditions: seq<string>, fault: Option<Fault>)
    ensures whereConditions == Texts(AnalyzeConds(a))
    ensures var o := OrderWord(a.sortOrder);
      && (o.Err? ==> fault == Some(o.fault))
      && (o.Ok? ==> fault == None && query == Text(AnalyzeStmt(a, o.value)) && params == Params(AnalyzeStmt(a, o.value))
                    && |params| >= 1 && params[|params| - 1] == IntParam(a.limit))
  {
    query := AnalyzeColumns;
    whereConditions, params := AnalyzeWhere(a);
    query := AddWhere(query, " WHERE ", whereConditions, AnalyzeConds(a));
    var sortField := SortField(a.sortBy);
    if a.sortOrder.None? {
      return query, params, whereConditions, Some(AttributeError);
    }
    var order := if Lower(a.sortOrder.value) == "asc" then "ASC" else "DESC";
    var orderBy := " ORDER BY " + sortField + " " + order + " LIMIT ";
    query := query + orderBy + P;
    params := params + [IntParam(a.limit)];
    fault := None;
    StmtShape(AnalyzeStmt(a, order));
  }

  /**
   * Builds the summary query: the main query's conditions over the
   * aggregate columns, bound to every main parameter but the limit.
   */
  method BuildAnalyzeSummary(a: AnalyzeArgs, whereConditions: seq<string>, params: seq<Param>)
    returns (summaryQuery: string, summaryParams: seq<Param>)
    requires whereConditions == Texts(AnalyzeConds(a)) && params == Args(AnalyzeConds(a)) + [IntParam(a.limit)]
    ensures summaryQuery == Text(AnalyzeSummaryStmt(a)) && summaryParams == Params(AnalyzeSummaryStmt(a))
  {
    summaryQuery := AddWhere(SummaryColumns, " WHERE ", whereConditions, AnalyzeConds(a));
    summaryParams := [];
    if |whereConditions| > 0 {
      summaryParams := params[..|params| - 1];
      assert summaryParams == Args(AnalyzeConds(a));
    }
    StmtShape(AnalyzeSummaryStmt(a));
  }

  /** Both statements bind, whatever order word the main one carries. */
  lemma AnalyzeWellFormed(a: AnalyzeArgs)
    ensures OrderWord(a.sortOrder).Ok? ==> WellFormed(AnalyzeStmt(a, OrderWord(a.sortOrder).value))
    ensures WellFormed(AnalyzeSummaryStmt(a))
  {
    AnalyzeColumnsPlain();
    SummaryColumnsPlain();
    AnalyzeCondsSound(a);
    SortFieldCases(a.sortBy);
    assert Plain(" ORDER BY ") && Plain(" LIMIT ") && Plain(" WHERE ");
    assert Plain("ASC") && Plain("DESC");
  }

  lemma AnalyzeCondsSound(a: AnalyzeArgs)
    ensures AllSound(AnalyzeConds(a))
  {
    AnalyzeCondTexts();
    var fs := AnalyzeFilters(a);
    assert forall i | 0 <= i < |fs| :: FilterSound(fs[i]);
    CondsSound(fs);
  }

  /**
   * The ORDER BY column is one of the mapped expressions; a missing or
   * unknown key sorts by date, and `conversion_rate` sorts by the computed
   * rate rather than by a stored column.
   */
  lemma SortFieldCases(sortBy: Option<string>)
    ensures SortField(sortBy) in AnalyzeSorts.Values && Plain(SortField(sortBy))
    ensures (sortBy.None? || sortBy.value !in AnalyzeSorts) ==> SortField(sortBy) == "date"
    ensures sortBy == Some("conversion_rate") ==> SortField(sortBy) == RateExpr
    ensures sortBy.Some? && sortBy.value in AnalyzeSorts && sortBy.value != "conversion_rate"
            ==> SortField(sortBy) == sortBy.value
  {
    RateExprPlain();
    assert AnalyzeSorts["date"] == "date";
  }

  /**
   * A None order raises; otherwise the order is ascending exactly for `asc`
   * written in any mix of cases, and descending for anything else.
   */
  lemma OrderWordCases(sortOrder: Option<string>)
    ensures OrderWord(sortOrder).Err? <==> sortOrder.None?
    ensures OrderWord(sortOrder).Err? ==> OrderWord(sortOrder).fault == AttributeError
    ensures OrderWord(sortOrder).Ok? ==> OrderWord(sortOrder).value == "ASC" || OrderWord(sortOrder).value == "DESC"
    ensures OrderWord(sortOrder) == Ok("ASC") <==>
      sortOrder.Some? && |sortOrder.value| == 3
      && sortOrder.value[0] in "aA" && sortOrder.value[1] in "sS" && sortOrder.value[2] in "cC"
  {
    if sortOrder.Some? {
      LowerIs(sortOrder.value, "asc");
    }
  }

  /**
   * The main query binds the values of the truthy filter arguments, in
   * argument order, and then the limit; the summary binds `params[:-1]`
   * when there are conditions and nothing otherwise, which is exactly the
   * filter values in both cases.
   */
  lemma AnalyzeParams(a: AnalyzeArgs, order: string)
    ensures Params(AnalyzeStmt(a, order)) == Values(AnalyzeFilters(a)) + [IntParam(a.limit)]
    ensures var p := Params(AnalyzeStmt(a, order));
      Params(AnalyzeSummaryStmt(a)) == (if AnalyzeConds(a) != [] then p[..|p| - 1] else [])
    ensures Params(AnalyzeSummaryStmt(a)) == Values(AnalyzeFilters(a))
    ensures AnalyzeConds(a) == [] <==> Values(AnalyzeFilters(a)) == []
  {
    CondsValues(AnalyzeFilters(a));
    CondsEmpty(AnalyzeFilters(a));
    StmtShape(AnalyzeStmt(a, order));
    StmtShape(AnalyzeSummaryStmt(a));
  }

  /** Without a truthy filter argument neither query has a WHERE, and only the limit is bound. */
  lemma AnalyzeNoFilters(a: AnalyzeArgs, order: string)
    requires Values(AnalyzeFilters(a)) == []
    ensures Section(" WHERE ", AnalyzeConds(a)) == ""
    ensures Params(AnalyzeStmt(a, order)) == [IntParam(a.limit)] && Params(AnalyzeSummaryStmt(a)) == []
  {
    AnalyzeParams(a, order);
  }

  /**
   * The tool: a None order raises before any query; otherwise the main
   * query; no rows gives the fixed message; with rows and without
   * `include_summary` the function reaches its end and returns None; with a
   * summary row it returns the pair, otherwise the rows alone.
   */
  function AnalyzeTvNetwork(a: AnalyzeArgs, server: Server): Outcome<NoReport> {
    match OrderWord(a.sortOrder)
    case Err(f) => Failed(AnalyzeFailure, f)
    case Ok(order) =>
      var q, s := AnalyzeStmt(a, order), AnalyzeSummaryStmt(a);
      AnalyzeOutcome(a.includeSummary, Execute(server, Text(q), Params(q)), Execute(server, Text(s), Params(s)))
  }

  const AnalyzeFailure := "Error analyzing TV networks: "

  /**
   * What the tool makes of the two fetches; the summary fetch is only
   * looked at with `include_summary` and rows. An error is reported with
   * the tool's prefix and is never one the fetches did not raise.
   */
  function AnalyzeOutcome(includeSummary: bool, main: Fetch, summary: Fetch): (r: Outcome<NoReport>)
    ensures r.Failed? ==> r.prefix == "Error analyzing TV networks: "
    ensures r.Failed? ==> main == Raised(r.fault) || (includeSummary && summary == Raised(r.fault))
  {
    match main
    case Raised(f) => Failed("Error analyzing TV networks: ", f)
    case Fetched(rows) =>
      if rows == [] then Message("No TV networks found matching the criteria.")
      else if !includeSummary then NoValue
      else
        match summary
        case Raised(f) => Failed("Error analyzing TV networks: ", f)
        case Fetched(srows) =>
          if srows != [] && srows[0] != map[] then RowsAndSummary(rows, srows[0]) else Rows(rows)
  }

  /** The tool never fails on the parameter count, whatever the arguments and the data. */
  lemma AnalyzeNeverArity(a: AnalyzeArgs, server: Server)
    ensures AnalyzeTvNetwork(a, server) != Failed("Error analyzing TV networks: ", ArityError)
  {
    AnalyzeWellFormed(a);
    if OrderWord(a.sortOrder).Ok? {
      StmtExecutes(server, AnalyzeStmt(a, OrderWord(a.sortOrder).value));
      StmtExecutes(server, AnalyzeSummaryStmt(a));
    }
  }

  /**
   * A None order is reported as the AttributeError before any query runs.
   * Otherwise no matching rows gives the fixed message; rows without
   * `include_summary` give None; an error from the server is reported
   * with the tool's prefix.
   */
  lemma AnalyzeAnswers(a: AnalyzeArgs, server: Server)
    ensures a.sortOrder.None? ==> AnalyzeTvNetwork(a, server) == Failed("Error analyzing TV networks: ", AttributeError)
    ensures a.sortOrder.Some? ==>
      var q := AnalyzeStmt(a, OrderWord(a.sortOrder).value);
      WellFormed(q)
      && (server(Filled(q)) == Answered([]) ==>
            AnalyzeTvNetwork(a, server) == Message("No TV networks found matching the criteria."))
      && (server(Filled(q)).Answered? && server(Filled(q)).rows != [] && !a.includeSummary ==>
            AnalyzeTvNetwork(a, server) == NoValue)
      && (server(Filled(q)).Refused? ==>
            AnalyzeTvNetwork(a, server)
            == Failed("Error analyzing TV networks: ", DatabaseError(server(Filled(q)).message)))
  {
    AnalyzeWellFormed(a);
    if a.sortOrder.Some? {
      StmtExecutes(server, AnalyzeStmt(a, OrderWord(a.sortOrder).value));
      StmtExecutes(server, AnalyzeSummaryStmt(a));
    }
  }

  /**
   * With `include_summary`, rows and a non-empty summary row give the pair;
   * an empty summary answer gives the rows alone.
   */
  lemma AnalyzeSummaryAnswers(a: AnalyzeArgs, server: Server)
    requires a.includeSummary
    ensures a.sortOrder.None? ==> AnalyzeTvNetwork(a, server) == Failed("Error analyzing TV networks: ", AttributeError)
    ensures a.sortOrder.Some? ==>
      var q, s := AnalyzeStmt(a, OrderWord(a.sortOrder).value), AnalyzeSummaryStmt(a);
      WellFormed(q) && WellFormed(s)
      && (server(Filled(q)).Answered? && server(Filled(q)).rows != [] && server(Filled(s)).Answered? ==>
            var rows, srows := server(Filled(q)).rows, server(Filled(s)).rows;
            AnalyzeTvNetwork(a, server)
            == if srows != [] && srows[0] != map[] then RowsAndSummary(rows, srows[0]) else Rows(rows))
  {
    AnalyzeWellFormed(a);
    if a.sortOrder.Some? {
      StmtExecutes(server, AnalyzeStmt(a, OrderWord(a.sortOrder).value));
      StmtExecutes(server, AnalyzeSummaryStmt(a));
    }
  }

  // ---------------------------------------------------------------------
  // linear_tv_get_network_and_program_trends
  // ---------------------------------------------------------------------

  /** The tool's arguments; `period` and `metric` are free strings, as Python does not check them. */
  datatype TrendsArgs = TrendsArgs(
    network: Option<string>, program: Option<string>, source: Option<string>,
    period: string, metric: string, dateFrom: Option<string>, dateTo: Option<string>,
    daysBack: Option<int>)

  /** The substring filters, in the order the tool tries them. */
  function TrendsFilters(a: TrendsArgs): seq<Filter> {
    [LikeF(NetworkLike, a.network), LikeF(ProgramLikeLower, a.program), LikeF(SourceLike, a.source)]
  }

  /** The substring filters, then the date window counted in days. */
  function TrendsConds(a: TrendsArgs): seq<Cond> {
    Conds(TrendsFilters(a)) + Window(a.dateFrom, a.dateTo, a.daysBack, "days")
  }

  /** One row per period bucket, grouped and ordered by the bucket. */
  function TrendsStmt(a: TrendsArgs): Stmt {
    var b := PeriodBucket(a.period);
    Stmt("SELECT " + b.format + TrendsColumns, " WHERE ", TrendsConds(a), "", [],
         " GROUP BY " + b.group + " ORDER BY " + b.group, None)
  }

  /** The condition block: the three substring filters, then the window step. */
  method TrendsWhere(a: TrendsArgs) returns (whereConditions: seq<string>, params: seq<Param>)
    ensures whereConditions == Texts(TrendsConds(a)) && params == Args(TrendsConds(a))
  {
    whereConditions, params := [], [];
    ghost var done: seq<Filter> := [];
    whereConditions, params, done := AppendFilter(LikeF(NetworkLike, a.network), whereConditions, params, [], done);
    whereConditions, params, done := AppendFilter(LikeF(ProgramLikeLower, a.program), whereConditions, params, [], done);
    whereConditions, params, done := AppendFilter(LikeF(SourceLike, a.source), whereConditions, params, [], done);
    assert done == TrendsFilters(a);
    whereConditions, params := AppendWindow(a.dateFrom, a.dateTo, a.daysBack, "days", whereConditions, params, Conds(done));
  }

  /** Builds the trend query as the tool does: conditions, period bucket, then the query text. */
  method BuildTrendsQuery(a: TrendsArgs) returns (query: string, params: seq<Param>)
    ensures query == Text(TrendsStmt(a)) && params == Params(TrendsStmt(a))
  {
    var whereConditions;
    whereConditions, params := TrendsWhere(a);
    var b := PeriodBucket(a.period);
    query := "SELECT " + b.format + TrendsColumns;
    query := AddWhere(query, " WHERE ", whereConditions, TrendsConds(a));
    var groupBy := " GROUP BY " + b.group + " ORDER BY " + b.group;
    query := query + groupBy;
    StmtShape(TrendsStmt(a));
  }

  lemma TrendsCondsSound(a: TrendsArgs)
    ensures AllSound(TrendsConds(a))
  {
    TrendCondTexts();
    var fs := TrendsFilters(a);
    assert forall i | 0 <= i < |fs| :: FilterSound(fs[i]);
    CondsSound(fs);
    AllSoundConcat(Conds(fs), Window(a.dateFrom, a.dateTo, a.daysBack, "days"));
  }

  lemma TrendsWellFormed(a: TrendsArgs)
    ensures WellFormed(TrendsStmt(a))
  {
    TrendsColumnsPlain();
    PeriodBucketPlain(a.period);
    TrendsCondsSound(a);
    assert Plain("SELECT ") && Plain(" GROUP BY ") && Plain(" ORDER BY ") && Plain(" WHERE ");
  }

  /**
   * The trend query always has a WHERE (the date window is never empty),
   * binds the substring values in argument order, then the start date and
   * then the end date; with no date at all it binds only the substrings.
   */
  lemma TrendsParams(a: TrendsArgs)
    ensures Section(" WHERE ", TrendsConds(a)) != ""
    ensures Params(TrendsStmt(a)) == Values(TrendsFilters(a)) + (TextArg(a.dateFrom) + TextArg(a.dateTo))
  {
    TrendsCondsArgs(a);
    var q := TrendsStmt(a);
    assert q.where == TrendsConds(a) && q.having == [] && q.limit == None;
    assert Params(q) == Args(q.where) + Args([]) + LimitArgs(None);
  }

  lemma TrendsCondsArgs(a: TrendsArgs)
    ensures TrendsConds(a) != []
    ensures Args(TrendsConds(a)) == Values(TrendsFilters(a)) + (TextArg(a.dateFrom) + TextArg(a.dateTo))
  {
    var fs, w := TrendsFilters(a), Window(a.dateFrom, a.dateTo, a.daysBack, "days");
    var cs := Conds(fs);
    CondsValues(fs);
    assert Args(cs) == Values(fs);
    WindowCases(a.dateFrom, a.dateTo, a.daysBack, "days");
    assert Args(w) == TextArg(a.dateFrom) + TextArg(a.dateTo) && w != [];
    ArgsConcat(cs, w);
    assert Args(cs + w) == Values(fs) + (TextArg(a.dateFrom) + TextArg(a.dateTo));
  }

  // ---------------------------------------------------------------------
  // The trend report
  // ---------------------------------------------------------------------

  const Metrics: set<string> := {"impressions", "reach", "frequency", "conversions"}

  /** The aggregate aliases of the trend query a metric can name. */
  const TrendAliases: set<string> := {"total_impressions", "total_reach", "avg_frequency", "total_conversions"}

  /** `metric_key` / `order_metric`: the aggregate column a metric is read from or ranked by. */
  function MetricKey(metric: string): string {
    if metric == "impressions" || metric == "reach" || metric == "conversions" then "total_" + metric
    else "avg_" + metric
  }

  /**
   * Each of the four documented metrics names one of the aggregate
   * aliases; any other metric names a column the query does not select.
   */
  lemma MetricKeyCases(metric: string)
    ensures metric in Metrics ==> MetricKey(metric) in TrendAliases
    ensures metric !in Metrics ==> MetricKey(metric) == "avg_" + metric && MetricKey(metric) !in TrendAliases
  {
    var k := MetricKey(metric);
    if metric == "impressions" {
      assert k == "total_impressions";
    } else if metric == "reach" {
      assert k == "total_reach";
    } else if metric == "conversions" {
      assert k == "total_conversions";
    } else if metric == "frequency" {
      assert k == "avg_frequency";
    } else {
      assert k[0] == 'a' && k[4..] == metric;
      assert "avg_frequency"[4..] == "frequency";
    }
  }

  /** The columns the breakdown reads from every period row. */
  predicate TotalsOk(row: Row) {
    Column(row, "total_impressions").Ok? && Column(row, "total_conversions").Ok?
    && Column(row, "total_reach").Ok?
  }

  /** One line of the period breakdown: its label and the two rates computed in Python. */
  datatype PeriodLine = PeriodLine(period: Value, convRate: real, reachRate: real)

  /**
   * The rates of one period: conversions per hundred impressions and reach
   * per impression, 0 when there are no impressions; the label must be
   * there and must not be NULL, which `:<12` cannot format.
   */
  function PeriodLineOf(row: Row): (r: Result<PeriodLine>)
    requires TotalsOk(row)
    ensures r.Ok? <==> "period" in row && !row["period"].Null?
    ensures r.Ok? ==> r.value.period == row["period"]
    ensures r.Err? ==> DataFault(r.fault)
    ensures r.Ok? ==> var imp := row["total_impressions"].x;
      && (imp > 0.0 ==> r.value.convRate * imp == row["total_conversions"].x * 100.0)
      && (imp > 0.0 ==> r.value.reachRate * imp == row["total_reach"].x)
      && (imp <= 0.0 ==> r.value.convRate == 0.0 && r.value.reachRate == 0.0)
  {
    var imp := row["total_impressions"].x;
    var convRate := if imp > 0.0 then row["total_conversions"].x / imp * 100.0 else 0.0;
    var reachRate := if imp > 0.0 then row["total_reach"].x / imp else 0.0;
    if "period" !in row then Err(KeyError("period"))
    else if row["period"].Null? then Err(TypeError)
    else Ok(PeriodLine(row["period"], convRate, reachRate))
  }

  /** The breakdown: one line per period, in order; the first bad row raises. */
  function Breakdown(rows: seq<Row>): (r: Result<seq<PeriodLine>>)
    requires forall i | 0 <= i < |rows| :: TotalsOk(rows[i])
    ensures r.Ok? <==> forall i | 0 <= i < |rows| :: PeriodLineOf(rows[i]).Ok?
    ensures r.Ok? ==> |r.value| == |rows|
    ensures r.Ok? ==> forall i | 0 <= i < |rows| :: PeriodLineOf(rows[i]) == Ok(r.value[i])
    ensures r.Err? ==> DataFault(r.fault)
    decreases |rows|
  {
    if rows == [] then Ok([])
    else
      var init := Breakdown(rows[..|rows| - 1]);
      var line := PeriodLineOf(rows[|rows| - 1]);
      if init.Err? then init
      else if line.Err? then Err(line.fault)
      else Ok(init.value + [line.value])
  }

  /** Once a prefix of the rows raises, the whole breakdown raises the same fault. */
  lemma {:induction false} BreakdownPrefixErr(rows: seq<Row>, i: nat)
    requires forall k | 0 <= k < |rows| :: TotalsOk(rows[k])
    requires i <= |rows| && Breakdown(rows[..i]).Err?
    ensures Breakdown(rows) == Breakdown(rows[..i])
    decreases |rows| - i
  {
    if i < |rows| {
      assert rows[..i + 1][..i] == rows[..i];
      BreakdownPrefixErr(rows, i + 1);
    } else {
      assert rows[..i] == rows;
    }
  }

  /** The `for row in trend_results` loop of the report. */
  method BuildBreakdown(rows: seq<Row>) returns (r: Result<seq<PeriodLine>>)
    requires forall i | 0 <= i < |rows| :: TotalsOk(rows[i])
    ensures r == Breakdown(rows)
  {
    var lines: seq<PeriodLine> := [];
    var i := 0;
    while i < |rows|
      invariant 0 <= i <= |rows|
      invariant Breakdown(rows[..i]) == Ok(lines)
    {
      assert rows[..i + 1][..i] == rows[..i];
      var line := PeriodLineOf(rows[i]);
      if line.Err? {
        BreakdownPrefixErr(rows, i + 1);
        return Err(line.fault);
      }
      lines := lines + [line.value];
      i := i + 1;
    }
    assert rows[..i] == rows;
    r := Ok(lines);
  }

  /** A numeric column in every row. */
  predicate NumericIn(rows: seq<Row>, key: string) {
    forall i | 0 <= i < |rows| :: key in rows[i] && rows[i][key].Num?
  }

  /** The four sums of the summary statistics (`avg_frequency` still undivided). */
  datatype Totals = Totals(impressions: real, reach: real, conversions: real, frequencySum: real)

  /** The sums in the order the tool computes them; the first one that raises ends it. */
  function TotalsOf(rows: seq<Row>): (r: Result<Totals>)
    ensures r.Ok? <==> (NumericIn(rows, "total_impressions") && NumericIn(rows, "total_reach")
                        && NumericIn(rows, "total_conversions") && NumericIn(rows, "avg_frequency"))
    ensures r.Ok? ==> forall i | 0 <= i < |rows| :: TotalsOk(rows[i])
    ensures r.Err? ==> DataFault(r.fault)
  {
    var imp := ColumnSum(rows, "total_impressions");
    var reach := ColumnSum(rows, "total_reach");
    var conv := ColumnSum(rows, "total_conversions");
    var freq := ColumnSum(rows, "avg_frequency");
    if imp.Err? then Err(imp.fault)
    else if reach.Err? then Err(reach.fault)
    else if conv.Err? then Err(conv.fault)
    else if freq.Err? then Err(freq.fault)
    else Ok(Totals(imp.value, reach.value, conv.value, freq.value))
  }

  /** The distinct-count maxima: networks, programs, sources. */
  datatype Counts = Counts(networks: real, programs: real, sources: real)

  function CountsOf(rows: seq<Row>): (r: Result<Counts>)
    requires rows != []
    ensures r.Ok? <==> (NumericIn(rows, "network_count") && NumericIn(rows, "program_count")
                        && NumericIn(rows, "source_count"))
    ensures r.Err? ==> DataFault(r.fault)
  {
    var nets := ColumnMax(rows, "network_count");
    var progs := ColumnMax(rows, "program_count");
    var srcs := ColumnMax(rows, "source_count");
    if nets.Err? then Err(nets.fault)
    else if progs.Err? then Err(progs.fault)
    else if srcs.Err? then Err(srcs.fault)
    else Ok(Counts(nets.value, progs.value, srcs.value))
  }

  /** The average frequency and the overall conversion rate of the summary statistics. */
  datatype Overall = Overall(avgFrequency: real, conversionRate: Option<real>)

  /**
   * The average frequency is the mean of the per-period averages; the
   * overall conversion rate is printed exactly when there are impressions,
   * as conversions per hundred impressions.
   */
  function OverallOf(t: Totals, periods: nat): (o: Overall)
    requires periods > 0
    ensures o.avgFrequency * (periods as real) == t.frequencySum
    ensures o.conversionRate.Some? <==> t.impressions > 0.0
    ensures o.conversionRate.Some? ==> o.conversionRate.value * t.impressions == t.conversions * 100.0
  {
    var avg := t.frequencySum / (periods as real);
    Ratio(t.frequencySum, periods as real, 1.0);
    if t.impressions > 0.0 then
      Ratio(t.conversions, t.impressions, 100.0);
      Overall(avg, Some(t.conversions / t.impressions * 100.0))
    else
      Overall(avg, None)
  }

  /** The values the trend report prints; its layout is not modelled. */
  datatype TrendsReport = TrendsReport(
    periods: nat, trend: Option<Trend>, totals: Totals, overall: Overall,
    counts: Counts, lines: seq<PeriodLine>)

  /**
   * The report over a non-empty set of period rows, in the order the tool
   * computes it: the trend of the metric, the four sums, the overall
   * conversion rate when there are impressions, the three maxima, then the
   * breakdown. The first failing step's exception ends it.
   */
  function TrendsReportOf(rows: seq<Row>, metric: string): (r: Result<TrendsReport>)
    requires rows != []
    ensures r.Err? ==> DataFault(r.fault)
  {
    var trend := TrendOf(rows, MetricKey(metric));
    var totals := TotalsOf(rows);
    var counts := CountsOf(rows);
    if trend.Err? then Err(trend.fault)
    else if totals.Err? then Err(totals.fault)
    else if counts.Err? then Err(counts.fault)
    else
      var lines := Breakdown(rows);
      if lines.Err? then Err(lines.fault)
      else
        Ok(TrendsReport(|rows|, trend.value, totals.value, OverallOf(totals.value, |rows|), counts.value, lines.value))
  }

  /**
   * The rows a report can be written from: the metric readable in the first
   * and last period when there is a trend to compute, the aggregate columns
   * numeric everywhere and every period labelled.
   */
  predicate Reportable(rows: seq<Row>, metric: string)
    requires rows != []
  {
    var key := MetricKey(metric);
    && (|rows| <= 1 || (Get(rows[0], key, Num(0.0)).Num? && Get(rows[|rows| - 1], key, Num(0.0)).Num?))
    && NumericIn(rows, "total_impressions") && NumericIn(rows, "total_reach")
    && NumericIn(rows, "total_conversions") && NumericIn(rows, "avg_frequency")
    && NumericIn(rows, "network_count") && NumericIn(rows, "program_count") && NumericIn(rows, "source_count")
    && forall i | 0 <= i < |rows| :: "period" in rows[i] && !rows[i]["period"].Null?
  }

  /** The report is written exactly for reportable rows; otherwise the tool lands in its `except`. */
  lemma TrendsReportDefined(rows: seq<Row>, metric: string)
    requires rows != []
    ensures TrendsReportOf(rows, metric).Ok? <==> Reportable(rows, metric)
  {
  }

  /**
   * What a report holds: one line per period, the trend of the metric's
   * column, the column sums and the overall figures computed from them.
   */
  lemma TrendsReportMeaning(rows: seq<Row>, metric: string)
    requires rows != [] && TrendsReportOf(rows, metric).Ok?
    ensures var r := TrendsReportOf(rows, metric).value;
      && r.periods == |rows| == |r.lines|
      && r.trend == TrendOf(rows, MetricKey(metric)).value
      && r.totals == TotalsOf(rows).value
      && r.overall == OverallOf(r.totals, |rows|)
      && r.counts == CountsOf(rows).value
  {
  }

  lemma Ratio(x: real, y: real, k: real)
    requires y != 0.0
    ensures (x / y * k) * y == x * k
  {
  }

  /** The totals are the column sums over the periods. */
  lemma TotalsMeaning(rows: seq<Row>)
    requires TotalsOf(rows).Ok?
    ensures var t := TotalsOf(rows).value;
      && ColumnSum(rows, "total_impressions") == Ok(t.impressions)
      && ColumnSum(rows, "total_reach") == Ok(t.reach)
      && ColumnSum(rows, "total_conversions") == Ok(t.conversions)
      && ColumnSum(rows, "avg_frequency") == Ok(t.frequencySum)
  {
  }

  /** Each count is the largest of its column, reached in some period. */
  lemma CountsMeaning(rows: seq<Row>)
    requires rows != [] && CountsOf(rows).Ok?
    ensures var c := CountsOf(rows).value;
      && (forall i | 0 <= i < |rows| :: Column(rows[i], "network_count").value <= c.networks)
      && (exists i | 0 <= i < |rows| :: Column(rows[i], "network_count") == Ok(c.networks))
      && (forall i | 0 <= i < |rows| :: Column(rows[i], "program_count").value <= c.programs)
      && (forall i | 0 <= i < |rows| :: Column(rows[i], "source_count").value <= c.sources)
  {
  }

  /**
   * The tool: the trend query, the fixed message when there are no periods,
   * otherwise the report; every exception is reported with the tool's prefix.
   */
  function NetworkAndProgramTrends(a: TrendsArgs, server: Server): Outcome<TrendsReport> {
    var q := TrendsStmt(a);
    TrendsOutcome(a.metric, Execute(server, Text(q), Params(q)))
  }

  function TrendsOutcome(metric: string, main: Fetch): (r: Outcome<TrendsReport>)
    ensures r.Failed? ==> r.prefix == " Error processing trends: "
    ensures r.Failed? && main.Fetched? ==> main.rows != [] && TrendsReportOf(main.rows, metric) == Err(r.fault)
    ensures r.Failed? ==> main == Raised(r.fault) || DataFault(r.fault)
    ensures r.Report? <==> main.Fetched? && main.rows != [] && TrendsReportOf(main.rows, metric).Ok?
  {
    match main
    case Raised(f) => Failed(" Error processing trends: ", f)
    case Fetched(rows) =>
      if rows == [] then Message("No trend data found for the specified criteria.")
      else
        match TrendsReportOf(rows, metric)
        case Err(f) => Failed(" Error processing trends: ", f)
        case Ok(t) => Report(t)
  }

  /** The tool never fails on the parameter count. */
  lemma TrendsNeverArity(a: TrendsArgs, server: Server)
    ensures NetworkAndProgramTrends(a, server) != Failed(" Error processing trends: ", ArityError)
  {
    var q := TrendsStmt(a);
    var main := Execute(server, Text(q), Params(q));
    TrendsWellFormed(a);
    StmtExecutes(server, q);
    TrendsOutcomeFaults(a.metric, main);
  }

  lemma TrendsOutcomeFaults(metric: string, main: Fetch)
    requires main != Raised(ArityError)
    ensures TrendsOutcome(metric, main) != Failed(" Error processing trends: ", ArityError)
  {
  }

  /**
   * No period rows give the fixed message, a server error is reported with
   * the prefix, and reportable rows give their report.
   */
  lemma TrendsAnswers(a: TrendsArgs, server: Server)
    ensures var q := TrendsStmt(a);
      WellFormed(q)
      && (server(Filled(q)) == Answered([]) ==>
            NetworkAndProgramTrends(a, server) == Message("No trend data found for the specified criteria."))
      && (server(Filled(q)).Refused? ==>
            NetworkAndProgramTrends(a, server)
            == Failed(" Error processing trends: ", DatabaseError(server(Filled(q)).message)))
      && (server(Filled(q)).Answered? && server(Filled(q)).rows != [] ==>
            (NetworkAndProgramTrends(a, server).Report? <==> Reportable(server(Filled(q)).rows, a.metric)))
  {
    TrendsWellFormed(a);
    StmtExecutes(server, TrendsStmt(a));
    var ans := server(Filled(TrendsStmt(a)));
    if ans.Answered? && ans.rows != [] {
      TrendsReportDefined(ans.rows, a.metric);
    }
  }

  // ---------------------------------------------------------------------
  // linear_tv_get_network_comparison
  // ---------------------------------------------------------------------

  /** The tool's arguments; `metric` is a free string, as Python does not check it. */
  datatype ComparisonArgs = ComparisonArgs(
    dateFrom: Option<string>, dateTo: Option<string>,
    network1: Option<string>, network2: Option<string>,
    daysBack: Option<int>, metric: string, topN: Option<int>)

  /** The pair of networks is compared only when both are given. */
  function PairConds(n1: Option<string>, n2: Option<string>): seq<Cond> {
    if GivenText(n1) && GivenText(n2) then [Cond(EitherNetwork, [Like(n1.value), Like(n2.value)])] else []
  }

  /** The fixed positivity condition, the optional network pair, then the window in days. */
  function ComparisonConds(a: ComparisonArgs): seq<Cond> {
    [Cond(Positive, [])] + PairConds(a.network1, a.network2) + Window(a.dateFrom, a.dateTo, a.daysBack, "days")
  }

  /** `f'LIMIT {top_n}' if top_n else ''`: the row limit is written into the text, not bound. */
  function TopN(topN: Option<int>): string {
    if GivenInt(topN) then " LIMIT " + IntText(topN.value) else ""
  }

  /** One row per network, ranked by the metric's aggregate, highest first. */
  function ComparisonStmt(a: ComparisonArgs): Stmt {
    Stmt(ComparisonColumns, " WHERE ", ComparisonConds(a), "", [],
         " GROUP BY network ORDER BY " + MetricKey(a.metric) + " DESC" + TopN(a.topN), None)
  }

  /** The condition block of the tool, starting from the fixed condition. */
  method ComparisonWhere(a: ComparisonArgs) returns (whereConditions: seq<string>, params: seq<Param>)
    ensures whereConditions == Texts(ComparisonConds(a)) && params == Args(ComparisonConds(a))
  {
    whereConditions, params := [Positive], [];
    ghost var cs := [Cond(Positive, [])];
    assert cs == [] + [Cond(Positive, [])];
    Push([], Cond(Positive, []));
    if GivenText(a.network1) && GivenText(a.network2) {
      var c := Cond(EitherNetwork, [Like(a.network1.value), Like(a.network2.value)]);
      Push(cs, c);
      whereConditions := whereConditions + [EitherNetwork];
      params := params + [Like(a.network1.value)];
      params := params + [Like(a.network2.value)];
      cs := cs + [c];
    }
    assert cs == [Cond(Positive, [])] + PairConds(a.network1, a.network2);
    whereConditions, params := AppendWindow(a.dateFrom, a.dateTo, a.daysBack, "days", whereConditions, params, cs);
  }

  /** Builds the comparison query as the tool does. */
  method BuildComparisonQuery(a: ComparisonArgs) returns (query: string, params: seq<Param>)
    ensures query == Text(ComparisonStmt(a)) && params == Params(ComparisonStmt(a))
  {
    var whereConditions;
    whereConditions, params := ComparisonWhere(a);
    var orderMetric := MetricKey(a.metric);
    query := ComparisonColumns;
    query := AddWhere(query, " WHERE ", whereConditions, ComparisonConds(a));
    var tail := " GROUP BY network ORDER BY " + orderMetric + " DESC" + TopN(a.topN);
    query := query + tail;
    StmtShape(ComparisonStmt(a));
  }

  lemma ComparisonCondsSound(a: ComparisonArgs)
    ensures AllSound(ComparisonConds(a))
  {
    ComparisonCondTexts();
    var p := [Cond(Positive, [])] + PairConds(a.network1, a.network2);
    assert AllSound(p);
    AllSoundConcat(p, Window(a.dateFrom, a.dateTo, a.daysBack, "days"));
  }

  /**
   * The query binds every placeholder whenever the metric's name holds no
   * `%`; the metric is written into the ORDER BY text, not bound.
   */
  lemma ComparisonWellFormed(a: ComparisonArgs)
    requires Plain(a.metric)
    ensures WellFormed(ComparisonStmt(a))
  {
    ComparisonColumnsPlain();
    ComparisonCondsSound(a);
    ComparisonTailPlain(a);
    assert Plain(" WHERE ");
  }

  lemma ComparisonTailPlain(a: ComparisonArgs)
    requires Plain(a.metric)
    ensures Plain(ComparisonStmt(a).tail)
  {
    assert Plain("total_") && Plain("avg_");
    var k := MetricKey(a.metric);
    assert Plain(k);
    if GivenInt(a.topN) {
      assert Plain(" LIMIT ");
      PlainCat(" LIMIT ", IntText(a.topN.value));
    }
    assert Plain(TopN(a.topN));
    assert Plain(" GROUP BY network ORDER BY ") && Plain(" DESC");
    PlainCat(" GROUP BY network ORDER BY ", k);
    PlainCat(" GROUP BY network ORDER BY " + k, " DESC");
    PlainCat(" GROUP BY network ORDER BY " + k + " DESC", TopN(a.topN));
  }

  /**
   * The comparison always has a WHERE (the positivity condition is always
   * there); it binds the two `%network%` patterns when both networks are
   * given, then the start date and the end date.
   */
  lemma ComparisonParams(a: ComparisonArgs)
    ensures Section(" WHERE ", ComparisonConds(a)) != ""
    ensures Params(ComparisonStmt(a)) == Args(PairConds(a.network1, a.network2)) + (TextArg(a.dateFrom) + TextArg(a.dateTo))
    ensures |Args(PairConds(a.network1, a.network2))| == (if GivenText(a.network1) && GivenText(a.network2) then 2 else 0)
  {
    ComparisonCondsArgs(a);
    var q := ComparisonStmt(a);
    assert q.where == ComparisonConds(a) && q.having == [] && q.limit == None;
    assert Params(q) == Args(q.where) + Args([]) + LimitArgs(None);
  }

  lemma ComparisonCondsArgs(a: ComparisonArgs)
    ensures ComparisonConds(a) != []
    ensures Args(ComparisonConds(a)) == Args(PairConds(a.network1, a.network2)) + (TextArg(a.dateFrom) + TextArg(a.dateTo))
    ensures |Args(PairConds(a.network1, a.network2))| == (if GivenText(a.network1) && GivenText(a.network2) then 2 else 0)
  {
    var pair, w := PairConds(a.network1, a.network2), Window(a.dateFrom, a.dateTo, a.daysBack, "days");
    var first := [Cond(Positive, [])];
    assert first[..0] == [] && Args(first) == [];
    ArgsConcat(first, pair);
    assert Args(first + pair) == Args(pair);
    if pair != [] {
      assert pair[..0] == [];
    }
    WindowCases(a.dateFrom, a.dateTo, a.daysBack, "days");
    assert Args(w) == TextArg(a.dateFrom) + TextArg(a.dateTo);
    ArgsConcat(first + pair, w);
  }

  /** The tool: the comparison rows, or the fixed message when there are none. */
  function NetworkComparison(a: ComparisonArgs, server: Server): Outcome<NoReport> {
    var q := ComparisonStmt(a);
    ComparisonOutcome(Execute(server, Text(q), Params(q)))
  }

  function ComparisonOutcome(main: Fetch): (r: Outcome<NoReport>)
    ensures r.Failed? <==> main.Raised?
    ensures r.Failed? ==> r == Failed("Error processing network comparison: ", main.fault)
    ensures r.Rows? <==> main.Fetched? && main.rows != []
    ensures r.Rows? ==> r.rows == main.rows
  {
    match main
    case Raised(f) => Failed("Error processing network comparison: ", f)
    case Fetched(rows) =>
      if rows == [] then Message("No network data found for the specified criteria.") else Rows(rows)
  }

  /** With a documented (plain) metric name the tool never fails on the parameter count. */
  lemma ComparisonNeverArity(a: ComparisonArgs, server: Server)
    requires Plain(a.metric)
    ensures NetworkComparison(a, server) != Failed("Error processing network comparison: ", ArityError)
  {
    ComparisonWellFormed(a);
    StmtExecutes(server, ComparisonStmt(a));
  }

  /** The server's rows come back as they are; no rows give the fixed message. */
  lemma ComparisonAnswers(a: ComparisonArgs, server: Server)
    requires Plain(a.metric)
    ensures var q := ComparisonStmt(a);
      WellFormed(q)
      && (server(Filled(q)) == Answered([]) ==>
            NetworkComparison(a, server) == Message("No network data found for the specified criteria."))
      && (server(Filled(q)).Answered? && server(Filled(q)).rows != [] ==>
            NetworkComparison(a, server) == Rows(server(Filled(q)).rows))
      && (server(Filled(q)).Refused? ==>
            NetworkComparison(a, server)
            == Failed("Error processing network comparison: ", DatabaseError(server(Filled(q)).message)))
  {
    ComparisonWellFormed(a);
    StmtExecutes(server, ComparisonStmt(a));
  }

  // ---------------------------------------------------------------------
  // Fixed SQL text
  // ---------------------------------------------------------------------

  /** The SELECT list and FROM of the main query (strands_tools/Linear_tv_ads.py:110-121). */
  const AnalyzeColumns := Cat(AnalyzeColumns1) + Cat(AnalyzeColumns2) + Cat(AnalyzeColumns3) + Cat(AnalyzeColumns4)

  const AnalyzeColumns1 := [
    "SELECT", " date,", " network,", " program,", " impressions,", " reach,", " frequency,",
    " conversions,", " source,", " ROUND("]

  const AnalyzeColumns2 := [
    " CAST(conversions", " *", " 100.0", " /", " NULLIF(impressions,", " 0)", " AS",
    " NUMERIC),", " 4", " )", " as", " conversion_rate_pct,", " ROUND("]

  const AnalyzeColumns3 := [
    " CAST(impressions", " *", " 1.0", " /", " NULLIF(reach,", " 0)", " AS", " NUMERIC),",
    " 2", " )", " as", " calculated_frequency", " FROM"]

  const AnalyzeColumns4 := [
    " linear_tv_ads"]

  lemma AnalyzeColumnsPlain()
    ensures Plain(AnalyzeColumns)
  {
    AnalyzeColumns1Plain();
    AnalyzeColumns2Plain();
    AnalyzeColumns3Plain();
    AnalyzeColumns4Plain();
  }

  lemma AnalyzeColumns1Plain()
    ensures Plain(Cat(AnalyzeColumns1))
  {
    CatPlain(AnalyzeColumns1);
  }

  lemma AnalyzeColumns2Plain()
    ensures Plain(Cat(AnalyzeColumns2))
  {
    CatPlain(AnalyzeColumns2);
  }

  lemma AnalyzeColumns3Plain()
    ensures Plain(Cat(AnalyzeColumns3))
  {
    CatPlain(AnalyzeColumns3);
  }

  lemma AnalyzeColumns4Plain()
    ensures Plain(Cat(AnalyzeColumns4))
  {
    CatPlain(AnalyzeColumns4);
  }

  /** The SELECT list and FROM of the summary query (strands_tools/Linear_tv_ads.py:183-198). */
  const SummaryColumns := Cat(SummaryColumns1) + Cat(SummaryColumns2) + Cat(SummaryColumns3) + Cat(SummaryColumns4) + Cat(SummaryColumns5)

  const SummaryColumns1 := [
    "SELECT", " COUNT(*)", " as", " total_networks,", " COUNT(DISTINCT", " network)", " as",
    " unique_networks,", " SUM(impressions)", " as"]

  const SummaryColumns2 := [
    " total_impressions,", " SUM(reach)", " as", " total_reach,", " ROUND(AVG(frequency),",
    " 2)", " as", " avg_frequency,"]

  const SummaryColumns3 := [
    " SUM(conversions)", " as", " total_conversions,", " ROUND(", " CAST(SUM(conversions)",
    " *", " 100.0", " /"]

  const SummaryColumns4 := [
    " NULLIF(SUM(impressions),", " 0)", " AS", " NUMERIC),", " 4", " )", " as",
    " overall_conversion_rate,", " MIN(date)", " as"]

  const SummaryColumns5 := [
    " earliest_network,", " MAX(date)", " as", " latest_network", " FROM", " linear_tv_ads"]

  lemma SummaryColumnsPlain()
    ensures Plain(SummaryColumns)
  {
    SummaryColumns1Plain();
    SummaryColumns2Plain();
    SummaryColumns3Plain();
    SummaryColumns4Plain();
    SummaryColumns5Plain();
  }

  lemma SummaryColumns1Plain()
    ensures Plain(Cat(SummaryColumns1))
  {
    CatPlain(SummaryColumns1);
  }

  lemma SummaryColumns2Plain()
    ensures Plain(Cat(SummaryColumns2))
  {
    CatPlain(SummaryColumns2);
  }

  lemma SummaryColumns3Plain()
    ensures Plain(Cat(SummaryColumns3))
  {
    CatPlain(SummaryColumns3);
  }

  lemma SummaryColumns4Plain()
    ensures Plain(Cat(SummaryColumns4))
  {
    CatPlain(SummaryColumns4);
  }

  lemma SummaryColumns5Plain()
    ensures Plain(Cat(SummaryColumns5))
  {
    CatPlain(SummaryColumns5);
  }

  /** The trend columns after the period label, and FROM (strands_tools/Linear_tv_ads.py:326-340). */
  const TrendsColumns := Cat(TrendsColumns1) + Cat(TrendsColumns2) + Cat(TrendsColumns3) + Cat(TrendsColumns4) + Cat(TrendsColumns5) + Cat(TrendsColumns6)

  const TrendsColumns1 := [
    " as", " period,", " SUM(impressions)", " as", " total_impressions,", " SUM(reach)",
    " as", " total_reach,", " ROUND(AVG(frequency),"]

  const TrendsColumns2 := [
    " 3)", " as", " avg_frequency,", " SUM(conversions)", " as", " total_conversions,",
    " ROUND((SUM(conversions)::DECIMAL", " /"]

  const TrendsColumns3 := [
    " NULLIF(SUM(impressions),", " 0))", " *", " 100,", " 4)", " as", " conversion_rate,",
    " ROUND((SUM(reach)::DECIMAL", " /"]

  const TrendsColumns4 := [
    " NULLIF(SUM(impressions),", " 0)),", " 4)", " as", " reach_rate,", " COUNT(DISTINCT",
    " network)", " as", " network_count,"]

  const TrendsColumns5 := [
    " COUNT(DISTINCT", " program)", " as", " program_count,", " COUNT(DISTINCT", " source)",
    " as", " source_count,", " COUNT(*)", " as"]

  const TrendsColumns6 := [
    " record_count", " FROM", " linear_tv_ads"]

  lemma TrendsColumnsPlain()
    ensures Plain(TrendsColumns)
  {
    TrendsColumns1Plain();
    TrendsColumns2Plain();
    TrendsColumns3Plain();
    TrendsColumns4Plain();
    TrendsColumns5Plain();
    TrendsColumns6Plain();
  }

  lemma TrendsColumns1Plain()
    ensures Plain(Cat(TrendsColumns1))
  {
    CatPlain(TrendsColumns1);
  }

  lemma TrendsColumns2Plain()
    ensures Plain(Cat(TrendsColumns2))
  {
    assert Plain(TrendsColumns2[0]);
    assert Plain(TrendsColumns2[1]);
    assert Plain(TrendsColumns2[2]);
    assert Plain(TrendsColumns2[3]);
    assert Plain(TrendsColumns2[4]);
    assert Plain(TrendsColumns2[5]);
    assert Plain(TrendsColumns2[6]);
    assert Plain(TrendsColumns2[7]);
    CatPlain(TrendsColumns2);
  }

  lemma TrendsColumns3Plain()
    ensures Plain(Cat(TrendsColumns3))
  {
    CatPlain(TrendsColumns3);
  }

  lemma TrendsColumns4Plain()
    ensures Plain(Cat(TrendsColumns4))
  {
    CatPlain(TrendsColumns4);
  }

  lemma TrendsColumns5Plain()
    ensures Plain(Cat(TrendsColumns5))
  {
    CatPlain(TrendsColumns5);
  }

  lemma TrendsColumns6Plain()
    ensures Plain(Cat(TrendsColumns6))
  {
    CatPlain(TrendsColumns6);
  }

  /** The SELECT list and FROM of the comparison query (strands_tools/Linear_tv_ads.py:495-503). */
  const ComparisonColumns := Cat(ComparisonColumns1) + Cat(ComparisonColumns2) + Cat(ComparisonColumns3) + Cat(ComparisonColumns4)

  const ComparisonColumns1 := [
    "SELECT", " network,", " SUM(impressions)", " AS", " total_impressions,", " SUM(reach)",
    " AS", " total_reach,"]

  const ComparisonColumns2 := [
    " ROUND(AVG(frequency),", " 2)", " AS", " avg_frequency,", " SUM(conversions)", " AS",
    " total_conversions,"]

  const ComparisonColumns3 := [
    " ROUND(SUM(conversions)", " *", " 100.0", " /", " NULLIF(SUM(impressions),", " 0),",
    " 4)", " AS", " conversion_rate_pct", " FROM"]

  const ComparisonColumns4 := [
    " linear_tv_ads"]

  lemma ComparisonColumnsPlain()
    ensures Plain(ComparisonColumns)
  {
    ComparisonColumns1Plain();
    ComparisonColumns2Plain();
    ComparisonColumns3Plain();
    ComparisonColumns4Plain();
  }

  lemma ComparisonColumns1Plain()
    ensures Plain(Cat(ComparisonColumns1))
  {
    CatPlain(ComparisonColumns1);
  }

  lemma ComparisonColumns2Plain()
    ensures Plain(Cat(ComparisonColumns2))
  {
    CatPlain(ComparisonColumns2);
  }

  lemma ComparisonColumns3Plain()
    ensures Plain(Cat(ComparisonColumns3))
  {
    CatPlain(ComparisonColumns3);
  }

  lemma ComparisonColumns4Plain()
    ensures Plain(Cat(ComparisonColumns4))
  {
    CatPlain(ComparisonColumns4);
  }

}
