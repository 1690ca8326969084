/**
 * The Connected TV tools (strands-tools/Connected_tv_ads.py) over the
 * `connected_tv_ads` table: per-ad-slot performance with a summary, trends
 * per period, and a search grouped by ad slot and platform.
 */
module ConnectedTv {
  import opened Sql
  import opened Filters
  import opened Shape

  const Table := "connected_tv_ads"

  // ---------------------------------------------------------------------
  // Condition texts
  // ---------------------------------------------------------------------

  const SlotLike := "LOWER(ad_slot) LIKE LOWER(" + P + ")"
  const PlatformIs := "LOWER(platform) = LOWER(" + P + ")"
  const SlotILike := "ad_slot ILIKE " + P
  const ImpressionsAtLeast := "SUM(impressions) >= " + P
  const HasConversions := "SUM(conversions) > 0"
  const NoConversions := "SUM(conversions) = 0"

  lemma WhereTexts()
    ensures OneHole(SlotLike) && OneHole(PlatformIs) && OneHole(SlotILike)
    ensures OneHole(DateFrom) && OneHole(DateTo)
  {
    OneSlot("LOWER(ad_slot) LIKE LOWER(", ")");
    OneSlot("LOWER(platform) = LOWER(", ")");
    OneSlot("ad_slot ILIKE ", "");
    assert SlotILike == "ad_slot ILIKE " + P + "";
    WindowTexts(None, "days");
  }

  lemma HavingTexts()
    ensures OneHole(ImpressionsAtLeast)
    ensures Plain(HasConversions) && Plain(NoConversions)
  {
    OneSlot("SUM(impressions) >= ", "");
    assert ImpressionsAtLeast == "SUM(impressions) >= " + P + "";
  }

  lemma FromPlain()
    ensures Plain(" FROM " + Table) && Plain(" WHERE ")
  {
    assert Plain(" FROM ") && Plain(Table);
  }

  // ---------------------------------------------------------------------
  // get_platform_performance
  // ---------------------------------------------------------------------

  /** The tool's arguments; `None` is an argument passed as None; defaults are filled by the caller. */
  datatype PerformanceArgs = PerformanceArgs(
    adSlot: Option<string>, platform: Option<string>,
    dateFrom: Option<string>, dateTo: Option<string>, timeOperator: TimeOp,
    metrics: Option<seq<string>>, limit: Option<int>)

  /** The ad slot and platform filters, in the order the tool tries them. */
  function PerformanceFilters(a: PerformanceArgs): seq<Filter> {
    [LikeF(SlotLike, a.adSlot), TextF(PlatformIs, a.platform)]
  }

  /** The ad slot and platform filters, then the date rule. */
  function PerformanceConds(a: PerformanceArgs): seq<Cond> {
    Conds(PerformanceFilters(a)) + DateRule(a.dateFrom, a.dateTo, a.timeOperator)
  }

  const DefaultMetrics := "impressions, completion_rate, " + "click_through_rate, conversions"

  /** `select_clause`: the three key columns, then the chosen metrics or the four defaults. */
  function SelectClause(metrics: Option<seq<string>>): string {
    "date, platform, ad_slot, " + MetricColumns(metrics, DefaultMetrics)
  }

  /** The main query: selected and computed columns, filters, `ORDER BY impressions DESC LIMIT %s`. */
  function PerformanceStmt(a: PerformanceArgs): Stmt {
    Stmt("SELECT " + SelectClause(a.metrics) + PlatformColumns + " FROM " + Table,
         " WHERE ", PerformanceConds(a), "", [], " ORDER BY impressions DESC LIMIT ", Some(IntParam(a.limit)))
  }

  /** The summary query: the same WHERE over the aggregate columns, without a limit. */
  function SummaryStmt(a: PerformanceArgs): Stmt {
    Stmt(SummaryColumns + " FROM " + Table, " WHERE ", PerformanceConds(a), "", [], "", None)
  }

  /** The condition block: ad slot, platform, then the date step. */
  method PerformanceWhere(a: PerformanceArgs) returns (whereConditions: seq<string>, params: seq<Param>)
    ensures whereConditions == Texts(PerformanceConds(a)) && params == Args(PerformanceConds(a))
  {
    whereConditions, params := [], [];
    ghost var done: seq<Filter> := [];
    whereConditions, params, done := AppendFilter(LikeF(SlotLike, a.adSlot), whereConditions, params, [], done);
    whereConditions, params, done := AppendFilter(TextF(PlatformIs, a.platform), whereConditions, params, [], done);
    assert done == PerformanceFilters(a);
    whereConditions, params := AppendDateRule(a.dateFrom, a.dateTo, a.timeOperator, whereConditions, params, Conds(done));
  }

  /** Builds the main query as the tool does, with the bound limit last. */
  method BuildPerformanceQuery(a: PerformanceArgs)
    returns (query: string, params: seq<Param>, whereConditions: seq<string>)
    ensures query == Text(PerformanceStmt(a)) && params == Params(PerformanceStmt(a))
    ensures whereConditions == Texts(PerformanceConds(a))
  {
    whereConditions, params := PerformanceWhere(a);
    var selectClause := SelectClause(a.metrics);
    query := "SELECT " + selectClause + PlatformColumns + " FROM " + Table;
    query := AddWhere(query, " WHERE ", whereConditions, PerformanceConds(a));
    var orderBy := " ORDER BY impressions DESC LIMIT ";
    query := query + orderBy + P;
    params := params + [IntParam(a.limit)];
    StmtShape(PerformanceStmt(a));
  }

  /** Builds the summary query: the same WHERE, bound to `params[:-1]`. */
  method BuildSummaryQuery(a: PerformanceArgs, whereConditions: seq<string>, params: seq<Param>)
    returns (summaryQuery: string, summaryParams: seq<Param>)
    requires whereConditions == Texts(PerformanceConds(a)) && params == Params(PerformanceStmt(a))
    ensures summaryQuery == Text(SummaryStmt(a)) && summaryParams == Params(SummaryStmt(a))
  {
    summaryQuery := AddWhere(SummaryColumns + " FROM " + Table, " WHERE ", whereConditions, PerformanceConds(a));
    summaryParams := params[..|params| - 1];
    StmtShape(SummaryStmt(a));
    StmtShape(PerformanceStmt(a));
  }

  lemma PerformanceCondsSound(a: PerformanceArgs)
    ensures AllSound(PerformanceConds(a))
  {
    WhereTexts();
    var fs := PerformanceFilters(a);
    assert forall i | 0 <= i < |fs| :: FilterSound(fs[i]);
    CondsSound(fs);
    AllSoundConcat(Conds(fs), DateRule(a.dateFrom, a.dateTo, a.timeOperator));
  }

  /** With plain metric names both statements are well formed. */
  lemma PerformanceWellFormed(a: PerformanceArgs)
    requires MetricsPlain(a.metrics)
    ensures WellFormed(PerformanceStmt(a)) && WellFormed(SummaryStmt(a))
  {
    PerformanceHeadPlain(a.metrics);
    SummaryColumnsPlain();
    FromPlain();
    assert Plain(" ORDER BY impressions DESC LIMIT ");
    PerformanceCondsSound(a);
  }

  lemma PerformanceHeadPlain(metrics: Option<seq<string>>)
    requires MetricsPlain(metrics)
    ensures Plain("SELECT " + SelectClause(metrics) + PlatformColumns + " FROM " + Table)
  {
    PlatformColumnsPlain();
    FromPlain();
    assert Plain("impressions, completion_rate, ") && Plain("click_through_rate, conversions");
    assert Plain("date, platform, ad_slot, ") && Plain("SELECT ");
    MetricColumnsPlain(metrics, DefaultMetrics);
  }

  /**
   * The SELECT list starts with the three key columns; without metrics (None
   * or an empty list) it carries four defaults, one more than the default
   * `metrics` argument names: `conversions` is added.
   */
  lemma SelectClauseCases(metrics: Option<seq<string>>)
    ensures SelectClause(metrics)[..25] == "date, platform, ad_slot, "
    ensures metrics.Some? && metrics.value != [] ==>
      SelectClause(metrics) == "date, platform, ad_slot, " + Join(", ", metrics.value)
    ensures metrics.None? || metrics.value == [] ==>
      SelectClause(metrics)
      == SelectClause(Some(["impressions", "completion_rate", "click_through_rate"])) + ", conversions"
  {
    DefaultsJoined();
  }

  lemma DefaultsJoined()
    ensures Join(", ", ["impressions", "completion_rate", "click_through_rate"]) + ", conversions" == DefaultMetrics
  {
    var d := ["impressions", "completion_rate", "click_through_rate"];
    assert d[..2] == ["impressions", "completion_rate"];
    assert d[..2][..1] == ["impressions"];
    var head := "impressions" + ", " + "completion_rate" + ", ";
    var tail := "click_through_rate" + ", conversions";
    assert head == "impressions, completion_rate, ";
    assert tail == "click_through_rate, conversions";
    assert Join(", ", d) + ", conversions" == head + tail;
  }

  /**
   * The main query binds the ad slot as `%slot%`, then the platform, then
   * the dates of the date rule, then the limit; the summary binds
   * `params[:-1]`, which is everything but the limit.
   */
  lemma PerformanceParams(a: PerformanceArgs)
    ensures Params(PerformanceStmt(a))
      == (LikeArg(a.adSlot) + TextArg(a.platform)) + Args(DateRule(a.dateFrom, a.dateTo, a.timeOperator))
         + [IntParam(a.limit)]
    ensures var p := Params(PerformanceStmt(a));
      Params(SummaryStmt(a)) == p[..|p| - 1]
  {
    var fs := PerformanceFilters(a);
    CondsValues(fs);
    Pair(fs[0], fs[1]);
    ArgsConcat(Conds(fs), DateRule(a.dateFrom, a.dateTo, a.timeOperator));
    StmtShape(PerformanceStmt(a));
    StmtShape(SummaryStmt(a));
  }

  const RequestFailure := "Error processing request: "

  /**
   * The figures the summary block formats as numbers, read with
   * `get(k, 0)`; the dates and the platform count are shown as they are.
   */
  const SummaryFields := [GotNumber("total_ad_slots"), GotNumber("total_impressions"),
                          GotNumber("total_conversions"), GotNumber("avg_completion_rate"),
                          GotNumber("avg_ctr"), GotNumber("overall_conversion_rate")]

  /** The tool: the main query, then the summary query over the same WHERE. */
  function GetPlatformPerformance(a: PerformanceArgs, server: Server): Outcome<NoReport> {
    var q, s := PerformanceStmt(a), SummaryStmt(a);
    PerformanceOutcome(Execute(server, Text(q), Params(q)), Execute(server, Text(s), Params(s)))
  }

  /**
   * The tool never returns its report. The rows are kept under one name
   * and tested under another that was never assigned, so once both queries
   * have run and the summary block is written, the `NameError` sends the
   * tool to its `except`; a summary figure that is not a number fails the
   * formatting before that.
   */
  function PerformanceOutcome(main: Fetch, summary: Fetch): (r: Outcome<NoReport>)
    ensures r.Failed? && r.prefix == RequestFailure
    ensures main.Raised? ==> r.fault == main.fault
    ensures main.Fetched? && summary.Raised? ==> r.fault == summary.fault
    ensures main.Fetched? && summary.Fetched? ==>
      var d := SummaryData(summary.rows);
      && (r.fault == NameError("campaign_results") <==> d == map[] || FieldsFault(d, SummaryFields).None?)
      && (r.fault != NameError("campaign_results") ==> Some(r.fault) == FieldsFault(d, SummaryFields))
  {
    match main
    case Raised(f) => Failed(RequestFailure, f)
    case Fetched(rows) =>
      match summary
      case Raised(f) => Failed(RequestFailure, f)
      case Fetched(srows) =>
        var summaryData := SummaryData(srows);
        var printed := FieldsFault(summaryData, SummaryFields);
        if summaryData != map[] && printed.Some? then Failed(RequestFailure, printed.value)
        else Failed(RequestFailure, NameError("campaign_results"))
  }

  /**
   * When no row matches, the summary sums are NULL, and formatting the
   * total impressions raises before the missing name is reached.
   */
  lemma NoMatchFormatFault(rows: seq<Row>, d: Row)
    requires "total_ad_slots" in d && d["total_ad_slots"].Num?
    requires "total_impressions" in d && d["total_impressions"] == Null
    ensures PerformanceOutcome(Fetched(rows), Fetched([d])) == Failed(RequestFailure, TypeError)
  {
    assert FieldFault(d, SummaryFields[0]).None?;
    assert FieldsFault(d, SummaryFields[1..]) == Some(TypeError);
  }

  /**
   * Both statements bind, so the tool's result is decided by what the
   * server answers to the two filled statements alone.
   */
  lemma PerformanceAnswers(a: PerformanceArgs, server: Server)
    requires MetricsPlain(a.metrics)
    ensures WellFormed(PerformanceStmt(a)) && WellFormed(SummaryStmt(a))
    ensures GetPlatformPerformance(a, server)
      == PerformanceOutcome(Answer2Fetch(server(Filled(PerformanceStmt(a)))),
                            Answer2Fetch(server(Filled(SummaryStmt(a)))))
  {
    PerformanceWellFormed(a);
    StmtExecutes(server, PerformanceStmt(a));
    StmtExecutes(server, SummaryStmt(a));
  }

  /**
   * Even when the server answers both queries, the tool returns the error
   * text: a `NameError` for `campaign_results`, or the formatting error of
   * a NULL summary figure, as when no row matched.
   */
  lemma PerformanceAlwaysFails(a: PerformanceArgs, server: Server)
    requires MetricsPlain(a.metrics)
    ensures WellFormed(PerformanceStmt(a)) && WellFormed(SummaryStmt(a))
    ensures server(Filled(PerformanceStmt(a))).Answered? && server(Filled(SummaryStmt(a))).Answered? ==>
      var d := SummaryData(server(Filled(SummaryStmt(a))).rows);
      GetPlatformPerformance(a, server)
      == Failed(RequestFailure, if d != map[] && FieldsFault(d, SummaryFields).Some? then FieldsFault(d, SummaryFields).value
                                else NameError("campaign_results"))
  {
    PerformanceAnswers(a, server);
  }

  // ---------------------------------------------------------------------
  // get_platform_trends
  // ---------------------------------------------------------------------

  /** The tool's arguments; `period` and `metric` are free strings, as Python does not check them. */
  datatype TrendsArgs = TrendsArgs(
    adSlot: Option<string>, platform: Option<string>, period: string, metric: string,
    dateFrom: Option<string>, dateTo: Option<string>, daysBack: Option<int>)

  function TrendsFilters(a: TrendsArgs): seq<Filter> {
    [LikeF(SlotLike, a.adSlot), TextF(PlatformIs, a.platform)]
  }

  /** The ad slot and platform filters, then the date window counted in days. */
  function TrendsConds(a: TrendsArgs): seq<Cond> {
    Conds(TrendsFilters(a)) + Window(a.dateFrom, a.dateTo, a.daysBack, "days")
  }

  /** One row per period bucket, grouped and ordered by the bucket. */
  function TrendsStmt(a: TrendsArgs): Stmt {
    var b := PeriodBucket(a.period);
    Stmt("SELECT " + b.format + TrendsColumns + " FROM " + Table, " WHERE ", TrendsConds(a), "", [],
         " GROUP BY " + b.group + " ORDER BY " + b.group, None)
  }

  /** The condition block: ad slot, platform, then the window step. */
  method TrendsWhere(a: TrendsArgs) returns (whereConditions: seq<string>, params: seq<Param>)
    ensures whereConditions == Texts(TrendsConds(a)) && params == Args(TrendsConds(a))
  {
    whereConditions, params := [], [];
    ghost var done: seq<Filter> := [];
    whereConditions, params, done := AppendFilter(LikeF(SlotLike, a.adSlot), whereConditions, params, [], done);
    whereConditions, params, done := AppendFilter(TextF(PlatformIs, a.platform), whereConditions, params, [], done);
    assert done == TrendsFilters(a);
    whereConditions, params := AppendWindow(a.dateFrom, a.dateTo, a.daysBack, "days", whereConditions, params, Conds(done));
  }

  /** Builds the trend query as the tool does: conditions, period bucket, then the query text. */
  method BuildTrendsQuery(a: TrendsArgs) returns (query: string, params: seq<Param>)
    ensures query == Text(TrendsStmt(a)) && params == Params(TrendsStmt(a))
  {
    var whereConditions;
    whereConditions, params := TrendsWhere(a);
    var b := PeriodBucket(a.period);
    query := "SELECT " + b.format + TrendsColumns + " FROM " + Table;
    query := AddWhere(query, " WHERE ", whereConditions, TrendsConds(a));
    var groupBy := " GROUP BY " + b.group + " ORDER BY " + b.group;
    query := query + groupBy;
    StmtShape(TrendsStmt(a));
  }

  lemma TrendsWellFormed(a: TrendsArgs)
    ensures WellFormed(TrendsStmt(a))
  {
    TrendsColumnsPlain();
    PeriodBucketPlain(a.period);
    FromPlain();
    assert Plain("SELECT ") && Plain(" GROUP BY ") && Plain(" ORDER BY ");
    WhereTexts();
    var fs := TrendsFilters(a);
    assert forall i | 0 <= i < |fs| :: FilterSound(fs[i]);
    CondsSound(fs);
    AllSoundConcat(Conds(fs), Window(a.dateFrom, a.dateTo, a.daysBack, "days"));
  }

  /**
   * The trend query always has a WHERE (the date window is never empty)
   * and binds the ad slot as `%slot%`, the platform, then the start date,
   * then the end date.
   */
  lemma TrendsParams(a: TrendsArgs)
    ensures Section(" WHERE ", TrendsConds(a)) != ""
    ensures Params(TrendsStmt(a)) == (LikeArg(a.adSlot) + TextArg(a.platform)) + (TextArg(a.dateFrom) + TextArg(a.dateTo))
  {
    var fs, w := TrendsFilters(a), Window(a.dateFrom, a.dateTo, a.daysBack, "days");
    CondsValues(fs);
    Pair(fs[0], fs[1]);
    WindowCases(a.dateFrom, a.dateTo, a.daysBack, "days");
    ArgsConcat(Conds(fs), w);
    StmtShape(TrendsStmt(a));
  }

  const TrendsFailure := "Error processing trends: "
  const NoTrendData := "No trend data found for the specified criteria."

  /** The column aliases of a trend row. */
  const TrendAliases := {"period", "impressions", "conversions", "avg_completion_rate",
                         "avg_click_through_rate", "conversion_rate", "campaign_count"}

  /**
   * `completion_rate` and `click_through_rate` are valid metrics, but the
   * trend rows only hold their averages under other names: read with a
   * default of 0, the first value is 0 and there is never a trend block.
   */
  lemma RateMetricsNoTrend(rows: seq<Row>, metric: string)
    requires forall i | 0 <= i < |rows| :: rows[i].Keys <= TrendAliases
    requires metric == "completion_rate" || metric == "click_through_rate"
    ensures TrendOf(rows, metric) == Ok(None)
  {
    assert metric !in TrendAliases;
    TrendMissingKey(rows, metric);
  }

  /**
   * For `impressions` and `conversions` the trend is computed from the
   * column itself: with two periods or more and numeric first and last
   * values, there is a trend block exactly when the first value is positive.
   */
  lemma CountMetricsTrend(rows: seq<Row>, metric: string)
    requires metric == "impressions" || metric == "conversions"
    requires |rows| >= 2 && Column(rows[0], metric).Ok? && Column(rows[|rows| - 1], metric).Ok?
    ensures TrendOf(rows, metric).Ok?
    ensures TrendOf(rows, metric).value.Some? <==> Column(rows[0], metric).value > 0.0
  {
    TrendAbsent(rows, metric);
  }

  /**
   * One period line, in print order: the label, five figures under
   * numeric formats, then the campaign count.
   */
  const LineFields := [Shown("period"), Number("impressions"), Number("conversions"),
                       Number("avg_completion_rate"), Number("avg_click_through_rate"),
                       Number("conversion_rate"), Shown("campaign_count")]

  /** The values the trend report is written from; its layout is not modelled. */
  datatype TrendsReport = TrendsReport(periods: nat, trend: Option<Trend>)

  /** The tool: the period rows, then the trend block and the lines. */
  function GetPlatformTrends(a: TrendsArgs, server: Server): Outcome<TrendsReport> {
    var q := TrendsStmt(a);
    TrendsOutcome(a.metric, Execute(server, Text(q), Params(q)))
  }

  /**
   * No periods give the fixed message; otherwise the trend of `metric` is
   * read first, then every line is written; any exception is reported
   * with the tool's prefix.
   */
  function TrendsOutcome(metric: string, main: Fetch): (r: Outcome<TrendsReport>)
    ensures r.Message? <==> main == Fetched([])
    ensures r.Message? ==> r.text == NoTrendData
    ensures r.Report? <==>
      main.Fetched? && main.rows != [] && TrendOf(main.rows, metric).Ok?
      && forall i | 0 <= i < |main.rows| :: FieldsFault(main.rows[i], LineFields).None?
    ensures r.Report? ==> r.report.periods == |main.rows| && r.report.trend == TrendOf(main.rows, metric).value
    ensures r.Failed? ==> r.prefix == TrendsFailure && (main == Raised(r.fault) || DataFault(r.fault))
    ensures r.Message? || r.Report? || r.Failed?
  {
    match main
    case Raised(f) => Failed(TrendsFailure, f)
    case Fetched(rows) =>
      if rows == [] then Message(NoTrendData)
      else
        match TrendOf(rows, metric)
        case Err(f) => Failed(TrendsFailure, f)
        case Ok(trend) =>
          RowsFaultMeaning(rows, LineFields);
          match RowsFault(rows, LineFields)
          case Some(f) => Failed(TrendsFailure, f)
          case None => Report(TrendsReport(|rows|, trend))
  }

  /** The statement binds, so the server's answer to the filled statement alone decides. */
  lemma TrendsAnswers(a: TrendsArgs, server: Server)
    ensures WellFormed(TrendsStmt(a))
    ensures GetPlatformTrends(a, server) == TrendsOutcome(a.metric, Answer2Fetch(server(Filled(TrendsStmt(a)))))
  {
    TrendsWellFormed(a);
    StmtExecutes(server, TrendsStmt(a));
  }

  // ---------------------------------------------------------------------
  // search_similar_ad_slot
  // ---------------------------------------------------------------------

  /** The tool's arguments; `None` is an argument passed as None; defaults are filled by the caller. */
  datatype SearchArgs = SearchArgs(
    searchTerm: Option<string>, platform: Option<string>, dateFrom: Option<string>, dateTo: Option<string>,
    minImpressions: Option<int>, hasConversions: Option<bool>, limit: Option<int>)

  /** The WHERE filters: search term, platform, then each date bound on its own. */
  function SearchWhereFilters(a: SearchArgs): seq<Filter> {
    [LikeF(SlotILike, a.searchTerm), TextF(PlatformIs, a.platform), TextF(DateFrom, a.dateFrom),
     TextF(DateTo, a.dateTo)]
  }

  /** The HAVING filters: the impressions threshold, then the conversions flag, which binds nothing. */
  function SearchHavingFilters(a: SearchArgs): seq<Filter> {
    [IntF(ImpressionsAtLeast, a.minImpressions), FlagF(HasConversions, NoConversions, a.hasConversions)]
  }

  /** One row per ad slot and platform, filtered after grouping, by total impressions, with the bound limit. */
  function SearchStmt(a: SearchArgs): Stmt {
    Stmt(SearchColumns + " FROM " + Table, " WHERE ", Conds(SearchWhereFilters(a)),
         " GROUP BY ad_slot, platform", Conds(SearchHavingFilters(a)),
         " ORDER BY total_impressions DESC LIMIT ", Some(IntParam(a.limit)))
  }

  /** The WHERE block: search term, platform, then each date bound. */
  method SearchWhere(a: SearchArgs) returns (whereConditions: seq<string>, params: seq<Param>)
    ensures whereConditions == Texts(Conds(SearchWhereFilters(a))) && params == Args(Conds(SearchWhereFilters(a)))
  {
    whereConditions, params := [], [];
    ghost var done: seq<Filter> := [];
    whereConditions, params, done := AppendFilter(LikeF(SlotILike, a.searchTerm), whereConditions, params, [], done);
    whereConditions, params, done := AppendFilter(TextF(PlatformIs, a.platform), whereConditions, params, [], done);
    whereConditions, params, done := AppendFilter(TextF(DateFrom, a.dateFrom), whereConditions, params, [], done);
    whereConditions, params, done := AppendFilter(TextF(DateTo, a.dateTo), whereConditions, params, [], done);
    assert done == SearchWhereFilters(a);
  }

  /** The HAVING block: its own condition list, its value appended after the WHERE values. */
  method SearchHaving(a: SearchArgs, params: seq<Param>) returns (havingConditions: seq<string>, params': seq<Param>)
    ensures havingConditions == Texts(Conds(SearchHavingFilters(a)))
    ensures params' == params + Args(Conds(SearchHavingFilters(a)))
  {
    havingConditions, params' := [], params;
    ghost var done: seq<Filter> := [];
    assert params' == params + Args(Conds(done));
    havingConditions, params', done :=
      AppendFilter(IntF(ImpressionsAtLeast, a.minImpressions), havingConditions, params', params, done);
    havingConditions, params', done :=
      AppendFilter(FlagF(HasConversions, NoConversions, a.hasConversions), havingConditions, params', params, done);
    assert done == SearchHavingFilters(a);
  }

  /**
   * Builds the search query as the tool does: the WHERE block, the HAVING
   * block appending to the same parameter list, then the limit.
   */
  method BuildSearchQuery(a: SearchArgs) returns (query: string, params: seq<Param>)
    ensures query == Text(SearchStmt(a)) && params == Params(SearchStmt(a))
  {
    var whereConditions, havingConditions;
    whereConditions, params := SearchWhere(a);
    havingConditions, params := SearchHaving(a, params);
    query := SearchColumns + " FROM " + Table;
    query := AddWhere(query, " WHERE ", whereConditions, Conds(SearchWhereFilters(a)));
    var groupBy := " GROUP BY ad_slot, platform";
    query := query + groupBy;
    query := AddWhere(query, " HAVING ", havingConditions, Conds(SearchHavingFilters(a)));
    var orderBy := " ORDER BY total_impressions DESC LIMIT ";
    query := query + orderBy + P;
    params := params + [IntParam(a.limit)];
  }

  lemma SearchWellFormed(a: SearchArgs)
    ensures WellFormed(SearchStmt(a))
  {
    SearchFixedPlain();
    SearchCondsSound(a);
  }

  lemma SearchFixedPlain()
    ensures Plain(SearchColumns + " FROM " + Table) && Plain(" WHERE ")
    ensures Plain(" GROUP BY ad_slot, platform") && Plain(" ORDER BY total_impressions DESC LIMIT ")
  {
    SearchColumnsPlain();
    FromPlain();
  }

  lemma SearchCondsSound(a: SearchArgs)
    ensures AllSound(Conds(SearchWhereFilters(a))) && AllSound(Conds(SearchHavingFilters(a)))
  {
    WhereTexts();
    HavingTexts();
    var ws, hs := SearchWhereFilters(a), SearchHavingFilters(a);
    assert forall i | 0 <= i < |ws| :: FilterSound(ws[i]);
    assert forall i | 0 <= i < |hs| :: FilterSound(hs[i]);
    CondsSound(ws);
    CondsSound(hs);
  }

  /**
   * The search binds the WHERE values (term as `%term%`, platform, start,
   * end), then the impressions threshold, then the limit; the conversions
   * flag binds nothing.
   */
  lemma SearchParams(a: SearchArgs)
    ensures Params(SearchStmt(a))
      == ((LikeArg(a.searchTerm) + TextArg(a.platform)) + (TextArg(a.dateFrom) + TextArg(a.dateTo)))
         + IntArg(a.minImpressions) + [IntParam(a.limit)]
  {
    SearchWhereArgs(a);
    var hs := SearchHavingFilters(a);
    CondsValues(hs);
    Pair(hs[0], hs[1]);
    assert Values(hs) == IntArg(a.minImpressions) + [];
  }

  lemma SearchWhereArgs(a: SearchArgs)
    ensures Args(Conds(SearchWhereFilters(a)))
      == (LikeArg(a.searchTerm) + TextArg(a.platform)) + (TextArg(a.dateFrom) + TextArg(a.dateTo))
  {
    var ws := SearchWhereFilters(a);
    CondsValues(ws);
    Quad(ws[0], ws[1], ws[2], ws[3]);
  }

  /**
   * The HAVING section is emitted exactly when the threshold is truthy or
   * the flag is given; a given flag contributes the last condition, `> 0`
   * for True and `= 0` for False.
   */
  lemma SearchHavingCases(a: SearchArgs)
    ensures var hs := Conds(SearchHavingFilters(a));
      && (hs == [] <==> !GivenInt(a.minImpressions) && a.hasConversions.None?)
      && (a.hasConversions.Some? ==>
            hs[|hs| - 1] == Cond(if a.hasConversions.value then HasConversions else NoConversions, []))
  {
    var fs := SearchHavingFilters(a);
    Pair(fs[0], fs[1]);
  }

  const SearchFailure := "Error searching ad_slot: "
  const NoSlots := "No similar result has been found"

  /** The tool: the matching ad slots, or the fixed message. */
  function SearchSimilarAdSlot(a: SearchArgs, server: Server): Outcome<NoReport> {
    var q := SearchStmt(a);
    RowsOrMessage(SearchFailure, NoSlots, Execute(server, Text(q), Params(q)))
  }

  /**
   * The statement binds, so the server's answer alone decides: its rows as
   * fetched, the fixed message for no rows, the error text for a refusal.
   */
  lemma SearchAnswers(a: SearchArgs, server: Server)
    ensures WellFormed(SearchStmt(a))
    ensures SearchSimilarAdSlot(a, server) == RowsOrMessage(SearchFailure, NoSlots, Answer2Fetch(server(Filled(SearchStmt(a)))))
  {
    SearchWellFormed(a);
    StmtExecutes(server, SearchStmt(a));
  }

  // ---------------------------------------------------------------------
  // Fixed SQL text
  // ---------------------------------------------------------------------

  /** The computed columns after the selected ones (strands-tools/Connected_tv_ads.py:137-140). */
  const PlatformColumns := Cat(PlatformColumns1) + Cat(PlatformColumns2) + Cat(PlatformColumns3)

  const PlatformColumns1 := [
    ",", " ROUND(completion_rate", " *", " 100,", " 2)", " as", " completion_rate_percent,",
    " ROUND(click_through_rate", " *", " 100,", " 2)", " as"]

  const PlatformColumns2 := [
    " ctr_percent,", " ROUND((conversions::DECIMAL", " /", " NULLIF(impressions,", " 0))",
    " *", " 100,", " 4)", " as", " conversion_rate,"]

  const PlatformColumns3 := [
    " ROUND(conversions::DECIMAL", " /", " NULLIF(impressions,", " 0)", " *",
    " click_through_rate,", " 6)", " as", " engagement_score"]

  lemma PlatformColumnsPlain()
    ensures Plain(PlatformColumns)
  {
    PlatformColumns1Plain();
    PlatformColumns2Plain();
    PlatformColumns3Plain();
  }

  lemma PlatformColumns1Plain()
    ensures Plain(Cat(PlatformColumns1))
  {
    CatPlain(PlatformColumns1);
  }

  lemma PlatformColumns2Plain()
    ensures Plain(Cat(PlatformColumns2))
  {
    CatPlain(PlatformColumns2);
  }

  lemma PlatformColumns3Plain()
    ensures Plain(Cat(PlatformColumns3))
  {
    CatPlain(PlatformColumns3);
  }

  /** The SELECT list of the summary query (strands-tools/Connected_tv_ads.py:163-172). */
  const SummaryColumns := Cat(SummaryColumns1) + Cat(SummaryColumns2) + Cat(SummaryColumns3) + Cat(SummaryColumns4) + Cat(SummaryColumns5)

  const SummaryColumns1 := [
    "SELECT", " COUNT(*)", " as", " total_ad_slots,", " SUM(impressions)", " as",
    " total_impressions,", " SUM(conversions)", " as"]

  const SummaryColumns2 := [
    " total_conversions,", " ROUND(AVG(completion_rate),", " 4)", " as",
    " avg_completion_rate,"]

  const SummaryColumns3 := [
    " ROUND(AVG(click_through_rate),", " 4)", " as", " avg_ctr,",
    " ROUND((SUM(conversions)::DECIMAL", " /"]

  const SummaryColumns4 := [
    " NULLIF(SUM(impressions),", " 0))", " *", " 100,", " 4)", " as",
    " overall_conversion_rate,", " COUNT(DISTINCT", " platform)", " as"]

  const SummaryColumns5 := [
    " platform_count,", " MIN(date)", " as", " start_date,", " MAX(date)", " as",
    " end_date"]

  lemma SummaryColumnsPlain()
    ensures Plain(SummaryColumns)
  {
    SummaryColumns1Plain();
    SummaryColumns2Plain();
    SummaryColumns3Plain();
    SummaryColumns4Plain();
    SummaryColumns5Plain();
  }

  lemma SummaryColumns1Plain()
    ensures Plain(Cat(SummaryColumns1))
  {
    CatPlain(SummaryColumns1);
  }

  lemma SummaryColumns2Plain()
    ensures Plain(Cat(SummaryColumns2))
  {
    CatPlain(SummaryColumns2);
  }

  lemma SummaryColumns3Plain()
    ensures Plain(Cat(SummaryColumns3))
  {
    CatPlain(SummaryColumns3);
  }

  lemma SummaryColumns4Plain()
    ensures Plain(Cat(SummaryColumns4))
  {
    CatPlain(SummaryColumns4);
  }

  lemma SummaryColumns5Plain()
    ensures Plain(Cat(SummaryColumns5))
  {
    CatPlain(SummaryColumns5);
  }

  /** The trend columns after the period label (strands-tools/Connected_tv_ads.py:299-305). */
  const TrendsColumns := Cat(TrendsColumns1) + Cat(TrendsColumns2) + Cat(TrendsColumns3) + Cat(TrendsColumns4)

  const TrendsColumns1 := [
    " as", " period,", " SUM(impressions)", " as", " impressions,", " SUM(conversions)",
    " as", " conversions,"]

  const TrendsColumns2 := [
    " ROUND(AVG(completion_rate),", " 4)", " as", " avg_completion_rate,",
    " ROUND(AVG(click_through_rate),", " 4)", " as"]

  const TrendsColumns3 := [
    " avg_click_through_rate,", " ROUND((SUM(conversions)::DECIMAL", " /",
    " NULLIF(SUM(impressions),", " 0))", " *", " 100,", " 4)"]

  const TrendsColumns4 := [
    " as", " conversion_rate,", " COUNT(*)", " as", " campaign_count"]

  lemma TrendsColumnsPlain()
    ensures Plain(TrendsColumns)
  {
    TrendsColumns1Plain();
    TrendsColumns2Plain();
    TrendsColumns3Plain();
    TrendsColumns4Plain();
  }

  lemma TrendsColumns1Plain()
    ensures Plain(Cat(TrendsColumns1))
  {
    CatPlain(TrendsColumns1);
  }

  lemma TrendsColumns2Plain()
    ensures Plain(Cat(TrendsColumns2))
  {
    CatPlain(TrendsColumns2);
  }

  lemma TrendsColumns3Plain()
    ensures Plain(Cat(TrendsColumns3))
  {
    CatPlain(TrendsColumns3);
  }

  lemma TrendsColumns4Plain()
    ensures Plain(Cat(TrendsColumns4))
  {
    CatPlain(TrendsColumns4);
  }

  /** The SELECT list of the search query (strands-tools/Connected_tv_ads.py:432-443). */
  const SearchColumns := Cat(SearchColumns1) + Cat(SearchColumns2) + Cat(SearchColumns3) + Cat(SearchColumns4) + Cat(SearchColumns5) + Cat(SearchColumns6)

  const SearchColumns1 := [
    "SELECT", " ad_slot,", " platform,", " SUM(impressions)", " as", " total_impressions,",
    " SUM(conversions)", " as"]

  const SearchColumns2 := [
    " total_conversions,", " ROUND(AVG(completion_rate),", " 4)", " as",
    " avg_completion_rate,"]

  const SearchColumns3 := [
    " ROUND(AVG(click_through_rate),", " 4)", " as", " avg_click_through_rate,",
    " MIN(date)", " as", " start_date,", " MAX(date)", " as"]

  const SearchColumns4 := [
    " end_date,", " COUNT(DISTINCT", " date)", " as", " days_active,",
    " ROUND((SUM(conversions)::DECIMAL", " /"]

  const SearchColumns5 := [
    " NULLIF(SUM(impressions),", " 0))", " *", " 100,", " 4)", " as", " conversion_rate,",
    " ROUND(AVG(completion_rate)", " *"]

  const SearchColumns6 := [
    " AVG(click_through_rate),", " 6)", " as", " engagement_score"]

  lemma SearchColumnsPlain()
    ensures Plain(SearchColumns)
  {
    SearchColumns1Plain();
    SearchColumns2Plain();
    SearchColumns3Plain();
    SearchColumns4Plain();
    SearchColumns5Plain();
    SearchColumns6Plain();
  }

  lemma SearchColumns1Plain()
    ensures Plain(Cat(SearchColumns1))
  {
    CatPlain(SearchColumns1);
  }

  lemma SearchColumns2Plain()
    ensures Plain(Cat(SearchColumns2))
  {
    CatPlain(SearchColumns2);
  }

  lemma SearchColumns3Plain()
    ensures Plain(Cat(SearchColumns3))
  {
    CatPlain(SearchColumns3);
  }

  lemma SearchColumns4Plain()
    ensures Plain(Cat(SearchColumns4))
  {
    CatPlain(SearchColumns4);
  }

  lemma SearchColumns5Plain()
    ensures Plain(Cat(SearchColumns5))
  {
    CatPlain(SearchColumns5);
  }

  lemma SearchColumns6Plain()
    ensures Plain(Cat(SearchColumns6))
  {
    CatPlain(SearchColumns6);
  }

}
