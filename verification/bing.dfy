/**
 * The Bing Ads tools (strands_tools/bing_tools.py) over the
 * `bing_advertising_data` table. Every statement starts its WHERE with the
 * fixed condition `source = 'Bing Ads'`; the condition texts are those of
 * the campaign tools.
 */
module Bing {
  import opened Sql
  import opened Filters
  import opened Shape
  import Campaign

  const Table := "bing_advertising_data"

  /** The condition every WHERE list starts with. */
  const SourceIsBing := "source = 'Bing Ads'"

  lemma FromPlain()
    ensures Plain(" FROM " + Table) && Plain(" WHERE ")
    ensures Plain(SourceIsBing) && SourceIsBing != []
    ensures FilterSound(FixedF(SourceIsBing))
  {
    assert Plain(" FROM ") && Plain(Table);
  }

  // ---------------------------------------------------------------------
  // get_campaign_performance_for_bing
  // ---------------------------------------------------------------------

  /**
   * The tool's arguments; `None` is an argument passed as None; defaults
   * are filled by the caller. `source` is accepted and never read.
   */
  datatype PerformanceArgs = PerformanceArgs(
    campaignName: Option<string>, campaignId: Option<string>, source: Option<string>,
    dateFrom: Option<string>, dateTo: Option<string>, timeOperator: TimeOp,
    metrics: Option<seq<string>>, limit: Option<int>)

  /** The fixed source condition, then the name and id filters. */
  function PerformanceFilters(a: PerformanceArgs): seq<Filter> {
    [FixedF(SourceIsBing), LikeF(Campaign.NameLike, a.campaignName), TextF(Campaign.IdIs, a.campaignId)]
  }

  /** The filters, then the date rule. */
  function PerformanceConds(a: PerformanceArgs): seq<Cond> {
    Conds(PerformanceFilters(a)) + DateRule(a.dateFrom, a.dateTo, a.timeOperator)
  }

  /** `select_clause`: the three key columns, then the chosen metrics or the four defaults. */
  function SelectClause(metrics: Option<seq<string>>): string {
    "date, campaign_id, campaign_name, " + MetricColumns(metrics, Campaign.DefaultMetrics)
  }

  /** A truthy limit orders by spend and binds the limit; otherwise the newest dates come first. */
  function OrderBy(limit: Option<int>): string {
    if GivenInt(limit) then " ORDER BY spend DESC LIMIT " else " ORDER BY date DESC"
  }

  function LimitOf(limit: Option<int>): Option<Param> {
    if GivenInt(limit) then Some(IntParam(limit)) else None
  }

  /** The main query: selected and computed columns, the conditions, then the ordering. */
  function PerformanceStmt(a: PerformanceArgs): Stmt {
    Stmt("SELECT " + SelectClause(a.metrics) + PerformanceColumns + " FROM " + Table,
         " WHERE ", PerformanceConds(a), "", [], OrderBy(a.limit), LimitOf(a.limit))
  }

  /** The summary query: the same WHERE over the aggregate columns. */
  function SummaryStmt(a: PerformanceArgs): Stmt {
    Stmt(SummaryColumns + " FROM " + Table, " WHERE ", PerformanceConds(a), "", [], "", None)
  }

  /** The condition block: the fixed condition, name, id, then the date step. */
  method PerformanceWhere(a: PerformanceArgs) returns (whereConditions: seq<string>, params: seq<Param>)
    ensures whereConditions == Texts(PerformanceConds(a)) && params == Args(PerformanceConds(a))
  {
    ghost var done: seq<Filter> := [FixedF(SourceIsBing)];
    Single(FixedF(SourceIsBing));
    whereConditions, params := [SourceIsBing], [];
    whereConditions, params, done :=
      AppendFilter(LikeF(Campaign.NameLike, a.campaignName), whereConditions, params, [], done);
    whereConditions, params, done := AppendFilter(TextF(Campaign.IdIs, a.campaignId), whereConditions, params, [], done);
    assert done == PerformanceFilters(a);
    whereConditions, params := AppendDateRule(a.dateFrom, a.dateTo, a.timeOperator, whereConditions, params, Conds(done));
  }

  /** Builds the main query as the tool does: the WHERE, then the ordering that a truthy limit decides. */
  method BuildPerformanceQuery(a: PerformanceArgs)
    returns (query: string, params: seq<Param>, whereConditions: seq<string>)
    ensures query == Text(PerformanceStmt(a)) && params == Params(PerformanceStmt(a))
    ensures whereConditions == Texts(PerformanceConds(a))
  {
    var selectClause := SelectClause(a.metrics);
    query := "SELECT " + selectClause + PerformanceColumns + " FROM " + Table;
    whereConditions, params := PerformanceWhere(a);
    query := AddWhere(query, " WHERE ", whereConditions, PerformanceConds(a));
    if GivenInt(a.limit) {
      query := query + " ORDER BY spend DESC LIMIT " + P;
      params := params + [IntParam(a.limit)];
    } else {
      query := query + " ORDER BY date DESC";
    }
    StmtShape(PerformanceStmt(a));
  }

  /**
   * Builds the summary query: the same WHERE, bound to `params[:-1]` when
   * the limit is truthy and there are parameters, to `params` otherwise.
   */
  method BuildSummaryQuery(a: PerformanceArgs, whereConditions: seq<string>, params: seq<Param>)
    returns (summaryQuery: string, summaryParams: seq<Param>)
    requires whereConditions == Texts(PerformanceConds(a)) && params == Params(PerformanceStmt(a))
    ensures summaryQuery == Text(SummaryStmt(a)) && summaryParams == Params(SummaryStmt(a))
  {
    summaryQuery := AddWhere(SummaryColumns + " FROM " + Table, " WHERE ", whereConditions, PerformanceConds(a));
    summaryParams := if GivenInt(a.limit) && params != [] then params[..|params| - 1] else params;
    StmtShape(SummaryStmt(a));
    PerformanceParams(a);
  }

  lemma PerformanceCondsSound(a: PerformanceArgs)
    ensures AllSound(PerformanceConds(a))
  {
    FromPlain();
    Campaign.WhereTexts();
    var fs := PerformanceFilters(a);
    assert forall i | 0 <= i < |fs| :: FilterSound(fs[i]);
    CondsSound(fs);
    AllSoundConcat(Conds(fs), DateRule(a.dateFrom, a.dateTo, a.timeOperator));
  }

  /** With plain metric names both statements are well formed. */
  lemma PerformanceWellFormed(a: PerformanceArgs)
    requires MetricsPlain(a.metrics)
    ensures WellFormed(PerformanceStmt(a)) && WellFormed(SummaryStmt(a))
  {
    PerformanceHeadPlain(a.metrics);
    SummaryColumnsPlain();
    FromPlain();
    assert Plain(" ORDER BY spend DESC LIMIT ") && Plain(" ORDER BY date DESC");
    PerformanceCondsSound(a);
  }

  lemma PerformanceHeadPlain(metrics: Option<seq<string>>)
    requires MetricsPlain(metrics)
    ensures Plain("SELECT " + SelectClause(metrics) + PerformanceColumns + " FROM " + Table)
  {
    PerformanceColumnsPlain();
    FromPlain();
    assert Plain(Campaign.DefaultMetrics) && Plain("date, campaign_id, campaign_name, ") && Plain("SELECT ");
    MetricColumnsPlain(metrics, Campaign.DefaultMetrics);
  }

  /** The WHERE list is never empty: it starts with the fixed condition. */
  lemma PerformanceCondsFirst(a: PerformanceArgs)
    ensures PerformanceConds(a) != [] && PerformanceConds(a)[0] == Cond(SourceIsBing, [])
  {
    var fs := PerformanceFilters(a);
    Triple(fs[0], fs[1], fs[2]);
  }

  /** The WHERE binds the name as `%name%`, the id, then the dates of the date rule. */
  lemma PerformanceValues(a: PerformanceArgs)
    ensures Args(PerformanceConds(a))
      == (LikeArg(a.campaignName) + TextArg(a.campaignId)) + Args(DateRule(a.dateFrom, a.dateTo, a.timeOperator))
  {
    var fs := PerformanceFilters(a);
    Triple(fs[0], fs[1], fs[2]);
    CondsValues(fs);
    assert Values(fs) == [] + LikeArg(a.campaignName) + TextArg(a.campaignId);
    ArgsConcat(Conds(fs), DateRule(a.dateFrom, a.dateTo, a.timeOperator));
  }

  /**
   * The main query binds the WHERE values, then the limit only when it is
   * truthy; the summary binds the WHERE values alone, which is what
   * `params[:-1] if limit and params else params` picks.
   */
  lemma PerformanceParams(a: PerformanceArgs)
    ensures var w := Args(PerformanceConds(a));
      && Params(PerformanceStmt(a)) == w + (if GivenInt(a.limit) then [IntParam(a.limit)] else [])
      && Params(SummaryStmt(a)) == w
    ensures var p := Params(PerformanceStmt(a));
      Params(SummaryStmt(a)) == if GivenInt(a.limit) && p != [] then p[..|p| - 1] else p
  {
    StmtShape(PerformanceStmt(a));
    StmtShape(SummaryStmt(a));
    var w := Args(PerformanceConds(a));
    assert w + [] == w;
    if GivenInt(a.limit) {
      assert (w + [IntParam(a.limit)])[..|w|] == w;
    }
  }

  /** The `source` argument changes neither statement. */
  lemma SourceIgnored(a: PerformanceArgs, source: Option<string>)
    ensures PerformanceStmt(a.(source := source)) == PerformanceStmt(a)
    ensures SummaryStmt(a.(source := source)) == SummaryStmt(a)
  {
    assert PerformanceFilters(a.(source := source)) == PerformanceFilters(a);
  }

  const RequestFailure := "Error processing request: "

  /** The summary block, in print order. */
  const SummaryFields := [Number("campaign_count"), Shown("start_date"), Shown("end_date"),
                          Number("total_impressions"), Number("total_clicks"), Number("total_spend"),
                          Number("total_conversions"), Shown("average_ctr"), NumberOrZero("average_cpc"),
                          Shown("overall_conversion_rate")]

  /** One campaign line, in print order. */
  const DetailFields := [Shown("date"), Shown("campaign_name"), Shown("campaign_id"),
                         Number("impressions"), Number("clicks"), Number("spend"), Shown("conversions"),
                         Shown("ctr"), NumberOrZero("cpc"), Shown("conversion_rate")]

  /** `summary_result = cursor.fetchone()`, kept when it is a non-empty row. */
  function PrintedSummary(srows: seq<Row>): (r: Option<Row>)
    ensures r.Some? <==> srows != [] && srows[0] != map[]
    ensures r.Some? ==> r.value == srows[0]
  {
    match FirstRow(srows)
    case Some(row) => if row != map[] then Some(row) else None
    case None => None
  }

  /** The values the performance report is written from; its layout is not modelled. */
  datatype PerformanceReport = PerformanceReport(summary: Option<Row>, rows: seq<Row>)

  /** The tool: the main query, then the summary query, then the report. */
  function GetCampaignPerformance(a: PerformanceArgs, server: Server): Outcome<PerformanceReport> {
    var q, s := PerformanceStmt(a), SummaryStmt(a);
    PerformanceOutcome(Execute(server, Text(q), Params(q)), Execute(server, Text(s), Params(s)))
  }

  /**
   * Both queries run first; then the summary block (when the summary row
   * is there) and one line per campaign are written, and the first value
   * that cannot be printed sends the tool to its `except`.
   */
  function PerformanceOutcome(main: Fetch, summary: Fetch): (r: Outcome<PerformanceReport>)
    ensures r.Failed? || r.Report?
    ensures r.Failed? ==>
      r.prefix == RequestFailure
      && (main == Raised(r.fault) || (main.Fetched? && summary == Raised(r.fault)) || DataFault(r.fault))
    ensures r.Report? <==>
      main.Fetched? && summary.Fetched?
      && (PrintedSummary(summary.rows).Some? ==> FieldsFault(PrintedSummary(summary.rows).value, SummaryFields).None?)
      && forall i | 0 <= i < |main.rows| :: FieldsFault(main.rows[i], DetailFields).None?
    ensures r.Report? ==> r.report.rows == main.rows && r.report.summary == PrintedSummary(summary.rows)
  {
    match main
    case Raised(f) => Failed(RequestFailure, f)
    case Fetched(rows) =>
      match summary
      case Raised(f) => Failed(RequestFailure, f)
      case Fetched(srows) =>
        var shown := PrintedSummary(srows);
        var head := if shown.Some? then FieldsFault(shown.value, SummaryFields) else None;
        if head.Some? then Failed(RequestFailure, head.value)
        else
          RowsFaultMeaning(rows, DetailFields);
          match RowsFault(rows, DetailFields)
          case Some(f) => Failed(RequestFailure, f)
          case None => Report(PerformanceReport(shown, rows))
  }

  /**
   * When no campaign matches, the aggregate row is still there with NULL
   * sums, and formatting the total impressions raises: the tool answers
   * with the error text, never with its no-data line.
   */
  lemma NoMatchFormatFault(d: Row)
    requires "campaign_count" in d && d["campaign_count"].Num?
    requires "start_date" in d && "end_date" in d
    requires "total_impressions" in d && d["total_impressions"] == Null
    ensures PerformanceOutcome(Fetched([]), Fetched([d])) == Failed(RequestFailure, TypeError)
  {
    NullImpressionsFault(d);
    assert d != map[];
    assert PrintedSummary([d]) == Some(d);
  }

  lemma NullImpressionsFault(d: Row)
    requires "campaign_count" in d && d["campaign_count"].Num?
    requires "start_date" in d && "end_date" in d
    requires "total_impressions" in d && d["total_impressions"] == Null
    ensures FieldsFault(d, SummaryFields) == Some(TypeError)
  {
    var fs := SummaryFields;
    assert fs[3] == Number("total_impressions");
    assert FieldFault(d, fs[3]) == Some(TypeError);
    assert fs[3..][0] == fs[3];
    assert FieldsFault(d, fs[3..]) == Some(TypeError);
    assert fs[2..][1..] == fs[3..] && fs[2..][0] == Shown("end_date");
    assert FieldsFault(d, fs[2..]) == Some(TypeError);
    assert fs[1..][1..] == fs[2..] && fs[1..][0] == Shown("start_date");
    assert FieldsFault(d, fs[1..]) == Some(TypeError);
    assert fs[0] == Number("campaign_count");
  }

  /**
   * Both statements bind, so the tool's result is decided by what the
   * server answers to the two filled statements alone.
   */
  lemma PerformanceAnswers(a: PerformanceArgs, server: Server)
    requires MetricsPlain(a.metrics)
    ensures WellFormed(PerformanceStmt(a)) && WellFormed(SummaryStmt(a))
    ensures GetCampaignPerformance(a, server)
      == PerformanceOutcome(Answer2Fetch(server(Filled(PerformanceStmt(a)))),
                            Answer2Fetch(server(Filled(SummaryStmt(a)))))
  {
    PerformanceWellFormed(a);
    StmtExecutes(server, PerformanceStmt(a));
    StmtExecutes(server, SummaryStmt(a));
  }

  // ---------------------------------------------------------------------
  // get_campaign_trends
  // ---------------------------------------------------------------------

  /** The tool's arguments; `period` and `metric` are free strings, as Python does not check them. */
  datatype TrendsArgs = TrendsArgs(
    campaignName: Option<string>, period: string, metric: string,
    dateFrom: Option<string>, dateTo: Option<string>, daysBack: Option<int>)

  function TrendsFilters(a: TrendsArgs): seq<Filter> {
    [FixedF(SourceIsBing), LikeF(Campaign.NameLike, a.campaignName)]
  }

  /** The fixed condition and the name filter, then the date window counted in `DAYS`. */
  function TrendsConds(a: TrendsArgs): seq<Cond> {
    Conds(TrendsFilters(a)) + Window(a.dateFrom, a.dateTo, a.daysBack, "DAYS")
  }

  /** One row per period bucket, grouped and ordered by the bucket. */
  function TrendsStmt(a: TrendsArgs): Stmt {
    var b := PeriodBucket(a.period);
    Stmt("SELECT " + b.format + TrendsColumns + " FROM " + Table, " WHERE ", TrendsConds(a), "", [],
         " GROUP BY " + b.group + " ORDER BY " + b.group, None)
  }

  /** The condition block: the fixed condition, the name, then the window step. */
  method TrendsWhere(a: TrendsArgs) returns (whereConditions: seq<string>, params: seq<Param>)
    ensures whereConditions == Texts(TrendsConds(a)) && params == Args(TrendsConds(a))
  {
    ghost var done: seq<Filter> := [FixedF(SourceIsBing)];
    Single(FixedF(SourceIsBing));
    whereConditions, params := [SourceIsBing], [];
    whereConditions, params, done :=
      AppendFilter(LikeF(Campaign.NameLike, a.campaignName), whereConditions, params, [], done);
    assert done == TrendsFilters(a);
    whereConditions, params := AppendWindow(a.dateFrom, a.dateTo, a.daysBack, "DAYS", whereConditions, params, Conds(done));
  }

  /** The WHERE list is never empty: it starts with the fixed condition. */
  lemma TrendsCondsFirst(a: TrendsArgs)
    ensures TrendsConds(a) != [] && TrendsConds(a)[0] == Cond(SourceIsBing, [])
  {
    Pair(FixedF(SourceIsBing), LikeF(Campaign.NameLike, a.campaignName));
  }

  /** Builds the trend query as the tool does: `WHERE` and the joined list, unconditionally. */
  method BuildTrendsQuery(a: TrendsArgs) returns (query: string, params: seq<Param>)
    ensures query == Text(TrendsStmt(a)) && params == Params(TrendsStmt(a))
  {
    var whereConditions;
    whereConditions, params := TrendsWhere(a);
    var whereClause := Join(" AND ", whereConditions);
    var b := PeriodBucket(a.period);
    TrendsCondsFirst(a);
    var select := "SELECT " + b.format + TrendsColumns + " FROM " + Table;
    var grouping := " GROUP BY " + b.group + " ORDER BY " + b.group;
    query := select + (" WHERE " + whereClause) + grouping;
    StmtShape(TrendsStmt(a));
    assert Section(" WHERE ", TrendsConds(a)) == " WHERE " + whereClause;
    assert query + LimitText(None) == query;
  }

  lemma TrendsWellFormed(a: TrendsArgs)
    ensures WellFormed(TrendsStmt(a))
  {
    TrendsColumnsPlain();
    PeriodBucketPlain(a.period);
    FromPlain();
    assert Plain("SELECT ") && Plain(" GROUP BY ") && Plain(" ORDER BY ") && Plain("DAYS");
    Campaign.WhereTexts();
    var fs := TrendsFilters(a);
    assert forall i | 0 <= i < |fs| :: FilterSound(fs[i]);
    CondsSound(fs);
    AllSoundConcat(Conds(fs), Window(a.dateFrom, a.dateTo, a.daysBack, "DAYS"));
  }

  /** The trend query binds the name as `%name%`, then the start date, then the end date. */
  lemma TrendsParams(a: TrendsArgs)
    ensures Params(TrendsStmt(a)) == LikeArg(a.campaignName) + (TextArg(a.dateFrom) + TextArg(a.dateTo))
  {
    TrendsCondsArgs(a);
    var q := TrendsStmt(a);
    assert Params(q) == Args(TrendsConds(a)) + Args([]) + LimitArgs(None);
  }

  lemma TrendsCondsArgs(a: TrendsArgs)
    ensures Args(TrendsConds(a)) == LikeArg(a.campaignName) + (TextArg(a.dateFrom) + TextArg(a.dateTo))
  {
    assert Plain("DAYS");
    var fs, w := TrendsFilters(a), Window(a.dateFrom, a.dateTo, a.daysBack, "DAYS");
    CondsValues(fs);
    Pair(fs[0], fs[1]);
    assert Values(fs) == LikeArg(a.campaignName);
    WindowCases(a.dateFrom, a.dateTo, a.daysBack, "DAYS");
    ArgsConcat(Conds(fs), w);
  }

  /** With neither date the last condition is the day window, which binds nothing. */
  lemma TrendsDaysBack(a: TrendsArgs)
    requires !GivenText(a.dateFrom) && !GivenText(a.dateTo)
    ensures TrendsConds(a)[|TrendsConds(a)| - 1] == Cond(DaysBack(a.daysBack, "DAYS"), [])
  {
    assert Plain("DAYS");
    WindowCases(a.dateFrom, a.dateTo, a.daysBack, "DAYS");
  }

  const TrendsFailure := "Error processing trends: "
  const NoTrendData := "No trend data found for the specified criteria."

  /** The metrics the tool offers, and the column aliases of a trend row. */
  const TrendMetrics := {"impressions", "clicks", "spend", "conversions", "ctr", "cpc"}
  const TrendAliases := {"period", "impressions", "clicks", "spend", "conversions", "ctr", "cpc"}

  /**
   * Every metric the tool offers is a column of the trend rows, so the
   * trend reads the metric itself: with two periods or more and numeric
   * first and last values, there is a trend block exactly when the first
   * value is positive.
   */
  lemma MetricsAreColumns(rows: seq<Row>, metric: string)
    requires metric in TrendMetrics
    requires |rows| >= 2 && Column(rows[0], metric).Ok? && Column(rows[|rows| - 1], metric).Ok?
    ensures metric in TrendAliases
    ensures TrendOf(rows, metric).Ok?
    ensures TrendOf(rows, metric).value.Some? <==> Column(rows[0], metric).value > 0.0
  {
    TrendAbsent(rows, metric);
  }

  /** One period line, in print order. */
  const TrendFields := [Shown("period"), Number("impressions"), Number("clicks"), Number("spend"),
                        Shown("conversions"), Shown("ctr"), NumberOrZero("cpc")]

  /** The values the trend report is written from; its layout is not modelled. */
  datatype TrendsReport = TrendsReport(periods: nat, trend: Option<Trend>)

  /** The tool: the period rows, then the trend block and the lines. */
  function GetCampaignTrends(a: TrendsArgs, server: Server): Outcome<TrendsReport> {
    var q := TrendsStmt(a);
    TrendsOutcome(a.metric, Execute(server, Text(q), Params(q)))
  }

  /**
   * No periods give the fixed message; otherwise the trend of `metric` is
   * read first, then every line is written; any exception is reported
   * with the tool's prefix.
   */
  function TrendsOutcome(metric: string, main: Fetch): (r: Outcome<TrendsReport>)
    ensures r.Message? <==> main == Fetched([])
    ensures r.Message? ==> r.text == NoTrendData
    ensures r.Report? <==>
      main.Fetched? && main.rows != [] && TrendOf(main.rows, metric).Ok?
      && forall i | 0 <= i < |main.rows| :: FieldsFault(main.rows[i], TrendFields).None?
    ensures r.Report? ==> r.report.periods == |main.rows| && r.report.trend == TrendOf(main.rows, metric).value
    ensures r.Failed? ==> r.prefix == TrendsFailure && (main == Raised(r.fault) || DataFault(r.fault))
    ensures r.Message? || r.Report? || r.Failed?
  {
    match main
    case Raised(f) => Failed(TrendsFailure, f)
    case Fetched(rows) =>
      if rows == [] then Message(NoTrendData)
      else
        match TrendOf(rows, metric)
        case Err(f) => Failed(TrendsFailure, f)
        case Ok(trend) =>
          RowsFaultMeaning(rows, TrendFields);
          match RowsFault(rows, TrendFields)
          case Some(f) => Failed(TrendsFailure, f)
          case None => Report(TrendsReport(|rows|, trend))
  }

  /** The statement binds, so the server's answer to the filled statement alone decides. */
  lemma TrendsAnswers(a: TrendsArgs, server: Server)
    ensures WellFormed(TrendsStmt(a))
    ensures GetCampaignTrends(a, server) == TrendsOutcome(a.metric, Answer2Fetch(server(Filled(TrendsStmt(a)))))
  {
    TrendsWellFormed(a);
    StmtExecutes(server, TrendsStmt(a));
  }

  // ---------------------------------------------------------------------
  // search_similar_campaigns
  // ---------------------------------------------------------------------

  /** The tool's arguments; `None` is an argument passed as None; defaults are filled by the caller. */
  datatype SearchArgs = SearchArgs(
    searchTerm: Option<string>, dateFrom: Option<string>, dateTo: Option<string>,
    minSpend: Option<real>, hasConversions: Option<bool>, limit: Option<int>)

  /** The WHERE filters: the fixed condition, the search term, then each date bound on its own. */
  function SearchWhereFilters(a: SearchArgs): seq<Filter> {
    [FixedF(SourceIsBing), LikeF(Campaign.NameLike, a.searchTerm), TextF(DateFrom, a.dateFrom),
     TextF(DateTo, a.dateTo)]
  }

  /** The HAVING filters: the spend threshold, then the conversions flag, which binds nothing. */
  function SearchHavingFilters(a: SearchArgs): seq<Filter> {
    [RealF(Campaign.SpendAtLeast, a.minSpend),
     FlagF(Campaign.HasConversions, Campaign.NoConversions, a.hasConversions)]
  }

  /** One row per campaign, filtered after grouping, by total spend, with the bound limit. */
  function SearchStmt(a: SearchArgs): Stmt {
    Stmt(SearchColumns + " FROM " + Table, " WHERE ", Conds(SearchWhereFilters(a)),
         " GROUP BY campaign_id, campaign_name", Conds(SearchHavingFilters(a)),
         " ORDER BY total_spend DESC LIMIT ", Some(IntParam(a.limit)))
  }

  /** The WHERE block: the fixed condition, the search term, then each date bound. */
  method SearchWhere(a: SearchArgs) returns (whereConditions: seq<string>, params: seq<Param>)
    ensures whereConditions == Texts(Conds(SearchWhereFilters(a))) && params == Args(Conds(SearchWhereFilters(a)))
  {
    ghost var done: seq<Filter> := [FixedF(SourceIsBing)];
    Single(FixedF(SourceIsBing));
    whereConditions, params := [SourceIsBing], [];
    whereConditions, params, done :=
      AppendFilter(LikeF(Campaign.NameLike, a.searchTerm), whereConditions, params, [], done);
    whereConditions, params, done := AppendFilter(TextF(DateFrom, a.dateFrom), whereConditions, params, [], done);
    whereConditions, params, done := AppendFilter(TextF(DateTo, a.dateTo), whereConditions, params, [], done);
    assert done == SearchWhereFilters(a);
  }

  /** The HAVING block: its own condition list, its value appended after the WHERE values. */
  method SearchHaving(a: SearchArgs, params: seq<Param>) returns (havingConditions: seq<string>, params': seq<Param>)
    ensures havingConditions == Texts(Conds(SearchHavingFilters(a)))
    ensures params' == params + Args(Conds(SearchHavingFilters(a)))
  {
    havingConditions, params' := [], params;
    ghost var done: seq<Filter> := [];
    assert params' == params + Args(Conds(done));
    havingConditions, params', done :=
      AppendFilter(RealF(Campaign.SpendAtLeast, a.minSpend), havingConditions, params', params, done);
    havingConditions, params', done :=
      AppendFilter(FlagF(Campaign.HasConversions, Campaign.NoConversions, a.hasConversions),
                   havingConditions, params', params, done);
    assert done == SearchHavingFilters(a);
  }

  /** The WHERE list is never empty: it starts with the fixed condition. */
  lemma SearchCondsFirst(a: SearchArgs)
    ensures Conds(SearchWhereFilters(a)) != [] && Conds(SearchWhereFilters(a))[0] == Cond(SourceIsBing, [])
  {
    var ws := SearchWhereFilters(a);
    assert ws == [ws[0], ws[1]] + [ws[2], ws[3]];
    Concat([ws[0], ws[1]], [ws[2], ws[3]]);
    Pair(ws[0], ws[1]);
  }

  /**
   * Builds the search query as the tool does: `WHERE` and the joined list
   * unconditionally, the grouping, the HAVING block when it has
   * conditions, then the limit.
   */
  method BuildSearchQuery(a: SearchArgs) returns (query: string, params: seq<Param>)
    ensures query == Text(SearchStmt(a)) && params == Params(SearchStmt(a))
  {
    var whereConditions, havingConditions;
    whereConditions, params := SearchWhere(a);
    var whereClause := Join(" AND ", whereConditions);
    havingConditions, params := SearchHaving(a, params);
    var havingClause := AddWhere("", " HAVING ", havingConditions, Conds(SearchHavingFilters(a)));
    SearchCondsFirst(a);
    assert " WHERE " + whereClause == Section(" WHERE ", Conds(SearchWhereFilters(a)));
    assert "" + Section(" HAVING ", Conds(SearchHavingFilters(a))) == Section(" HAVING ", Conds(SearchHavingFilters(a)));
    var head := SearchColumns + " FROM " + Table;
    var groupBy := " GROUP BY campaign_id, campaign_name";
    var orderBy := " ORDER BY total_spend DESC LIMIT ";
    query := head + (" WHERE " + whereClause) + groupBy + havingClause + orderBy + P;
    params := params + [IntParam(a.limit)];
  }

  lemma SearchWellFormed(a: SearchArgs)
    ensures WellFormed(SearchStmt(a))
  {
    SearchFixedPlain();
    SearchCondsSound(a);
  }

  lemma SearchFixedPlain()
    ensures Plain(SearchColumns + " FROM " + Table) && Plain(" WHERE ")
    ensures Plain(" GROUP BY campaign_id, campaign_name") && Plain(" ORDER BY total_spend DESC LIMIT ")
  {
    SearchHeadPlain();
    assert Plain(" GROUP BY campaign_id, campaign_name");
  }

  lemma SearchHeadPlain()
    ensures Plain(SearchColumns + " FROM " + Table)
  {
    SearchColumnsPlain();
    FromPlain();
    PlainCat(SearchColumns, " FROM " + Table);
  }

  lemma SearchCondsSound(a: SearchArgs)
    ensures AllSound(Conds(SearchWhereFilters(a))) && AllSound(Conds(SearchHavingFilters(a)))
  {
    FromPlain();
    Campaign.WhereTexts();
    Campaign.HavingTexts();
    var ws, hs := SearchWhereFilters(a), SearchHavingFilters(a);
    assert forall i | 0 <= i < |ws| :: FilterSound(ws[i]);
    assert forall i | 0 <= i < |hs| :: FilterSound(hs[i]);
    CondsSound(ws);
    CondsSound(hs);
  }

  /**
   * The search binds the WHERE values (term as `%term%`, start, end), then
   * the spend threshold, then the limit; the fixed condition and the
   * conversions flag bind nothing.
   */
  lemma SearchParams(a: SearchArgs)
    ensures Params(SearchStmt(a))
      == (LikeArg(a.searchTerm) + (TextArg(a.dateFrom) + TextArg(a.dateTo))) + RealArg(a.minSpend) + [IntParam(a.limit)]
  {
    SearchWhereValues(a);
    var hs := SearchHavingFilters(a);
    CondsValues(hs);
    Pair(hs[0], hs[1]);
    assert Values(hs) == RealArg(a.minSpend) + [];
  }

  lemma SearchWhereValues(a: SearchArgs)
    ensures Args(Conds(SearchWhereFilters(a))) == LikeArg(a.searchTerm) + (TextArg(a.dateFrom) + TextArg(a.dateTo))
  {
    var ws := SearchWhereFilters(a);
    CondsValues(ws);
    assert ws == [ws[0], ws[1]] + [ws[2], ws[3]];
    Concat([ws[0], ws[1]], [ws[2], ws[3]]);
    Pair(ws[0], ws[1]);
    Pair(ws[2], ws[3]);
    assert Values([ws[0], ws[1]]) == LikeArg(a.searchTerm);
  }

  const SearchFailure := "Error searching campaigns: "
  const NoCampaigns := "No campaigns found matching the search criteria."

  /** One campaign line, in print order. */
  const SearchFields := [Shown("campaign_name"), Shown("campaign_id"), Shown("start_date"), Shown("end_date"),
                         Shown("days_active"), Number("total_spend"), Number("total_impressions"),
                         Number("total_clicks"), Shown("total_conversions"), Shown("ctr"),
                         Shown("conversion_rate")]

  /** The values the search report is written from; its layout is not modelled. */
  datatype SearchReport = SearchReport(found: nat, rows: seq<Row>)

  /** The tool: the matching campaigns as a report, or the fixed message. */
  function SearchSimilarCampaigns(a: SearchArgs, server: Server): Outcome<SearchReport> {
    var q := SearchStmt(a);
    SearchOutcome(Execute(server, Text(q), Params(q)))
  }

  /** No rows give the fixed message; otherwise one line per campaign, or the first line's exception. */
  function SearchOutcome(main: Fetch): (r: Outcome<SearchReport>)
    ensures r.Message? <==> main == Fetched([])
    ensures r.Message? ==> r.text == NoCampaigns
    ensures r.Report? <==>
      main.Fetched? && main.rows != [] && forall i | 0 <= i < |main.rows| :: FieldsFault(main.rows[i], SearchFields).None?
    ensures r.Report? ==> r.report == SearchReport(|main.rows|, main.rows)
    ensures r.Failed? ==> r.prefix == SearchFailure && (main == Raised(r.fault) || DataFault(r.fault))
    ensures r.Message? || r.Report? || r.Failed?
  {
    match main
    case Raised(f) => Failed(SearchFailure, f)
    case Fetched(rows) =>
      if rows == [] then Message(NoCampaigns)
      else
        RowsFaultMeaning(rows, SearchFields);
        match RowsFault(rows, SearchFields)
        case Some(f) => Failed(SearchFailure, f)
        case None => Report(SearchReport(|rows|, rows))
  }

  /** The statement binds, so the server's answer to the filled statement alone decides. */
  lemma SearchAnswers(a: SearchArgs, server: Server)
    ensures WellFormed(SearchStmt(a))
    ensures SearchSimilarCampaigns(a, server) == SearchOutcome(Answer2Fetch(server(Filled(SearchStmt(a)))))
  {
    SearchWellFormed(a);
    StmtExecutes(server, SearchStmt(a));
  }

  // ---------------------------------------------------------------------
  // Fixed SQL text
  // ---------------------------------------------------------------------

  /** The computed columns after the selected ones (strands_tools/bing_tools.py:126-129). */
  const PerformanceColumns := Cat(PerformanceColumns1) + Cat(PerformanceColumns2) + Cat(PerformanceColumns3)

  const PerformanceColumns1 := [
    ",", " ROUND((clicks::DECIMAL", " /", " NULLIF(impressions,", " 0))", " *", " 100,",
    " 2)", " as", " ctr,", " ROUND(spend::DECIMAL", " /"]

  const PerformanceColumns2 := [
    " NULLIF(clicks,", " 0),", " 2)", " as", " cpc,", " ROUND((conversions::DECIMAL", " /",
    " NULLIF(clicks,", " 0))", " *", " 100,", " 2)", " as"]

  const PerformanceColumns3 := [
    " conversion_rate,", " ROUND(spend::DECIMAL", " /", " NULLIF(conversions,", " 0),",
    " 2)", " as", " cost_per_conversion"]

  lemma PerformanceColumnsPlain()
    ensures Plain(PerformanceColumns)
  {
    PerformanceColumns1Plain();
    PerformanceColumns2Plain();
    PerformanceColumns3Plain();
  }

  lemma PerformanceColumns1Plain()
    ensures Plain(Cat(PerformanceColumns1))
  {
    CatPlain(PerformanceColumns1);
  }

  lemma PerformanceColumns2Plain()
    ensures Plain(Cat(PerformanceColumns2))
  {
    CatPlain(PerformanceColumns2);
  }

  lemma PerformanceColumns3Plain()
    ensures Plain(Cat(PerformanceColumns3))
  {
    CatPlain(PerformanceColumns3);
  }

  /** The SELECT list of the summary query (strands_tools/bing_tools.py:171-181). */
  const SummaryColumns := Cat(SummaryColumns1) + Cat(SummaryColumns2) + Cat(SummaryColumns3) + Cat(SummaryColumns4) + Cat(SummaryColumns5) + Cat(SummaryColumns6)

  const SummaryColumns1 := [
    "SELECT", " SUM(impressions)", " as", " total_impressions,", " SUM(clicks)", " as",
    " total_clicks,", " ROUND(SUM(spend),", " 2)", " as"]

  const SummaryColumns2 := [
    " total_spend,", " SUM(conversions)", " as", " total_conversions,",
    " ROUND(AVG((clicks::DECIMAL", " /"]

  const SummaryColumns3 := [
    " NULLIF(impressions,", " 0))", " *", " 100),", " 2)", " as", " average_ctr,",
    " ROUND(AVG(spend::DECIMAL", " /", " NULLIF(clicks,", " 0)),"]

  const SummaryColumns4 := [
    " 2)", " as", " average_cpc,", " ROUND((SUM(conversions)::DECIMAL", " /",
    " NULLIF(SUM(clicks),", " 0))", " *", " 100,", " 2)", " as"]

  const SummaryColumns5 := [
    " overall_conversion_rate,", " COUNT(DISTINCT", " campaign_id)", " as",
    " campaign_count,", " MIN(date)", " as", " start_date,"]

  const SummaryColumns6 := [
    " MAX(date)", " as", " end_date"]

  lemma SummaryColumnsPlain()
    ensures Plain(SummaryColumns)
  {
    SummaryColumns1Plain();
    SummaryColumns2Plain();
    SummaryColumns3Plain();
    SummaryColumns4Plain();
    SummaryColumns5Plain();
    SummaryColumns6Plain();
  }

  lemma SummaryColumns1Plain()
    ensures Plain(Cat(SummaryColumns1))
  {
    CatPlain(SummaryColumns1);
  }

  lemma SummaryColumns2Plain()
    ensures Plain(Cat(SummaryColumns2))
  {
    CatPlain(SummaryColumns2);
  }

  lemma SummaryColumns3Plain()
    ensures Plain(Cat(SummaryColumns3))
  {
    CatPlain(SummaryColumns3);
  }

  lemma SummaryColumns4Plain()
    ensures Plain(Cat(SummaryColumns4))
  {
    assert Plain(SummaryColumns4[0]);
    assert Plain(SummaryColumns4[1]);
    assert Plain(SummaryColumns4[2]);
    assert Plain(SummaryColumns4[3]);
    assert Plain(SummaryColumns4[4]);
    assert Plain(SummaryColumns4[5]);
    assert Plain(SummaryColumns4[6]);
    assert Plain(SummaryColumns4[7]);
    assert Plain(SummaryColumns4[8]);
    assert Plain(SummaryColumns4[9]);
    assert Plain(SummaryColumns4[10]);
    CatPlain(SummaryColumns4);
  }

  lemma SummaryColumns5Plain()
    ensures Plain(Cat(SummaryColumns5))
  {
    CatPlain(SummaryColumns5);
  }

  lemma SummaryColumns6Plain()
    ensures Plain(Cat(SummaryColumns6))
  {
    CatPlain(SummaryColumns6);
  }

  /** The trend columns after the period label (strands_tools/bing_tools.py:291-297). */
  const TrendsColumns := Cat(TrendsColumns1) + Cat(TrendsColumns2) + Cat(TrendsColumns3)

  const TrendsColumns1 := [
    " as", " period,", " SUM(impressions)", " as", " impressions,", " SUM(clicks)", " as",
    " clicks,", " ROUND(SUM(spend),", " 2)", " as", " spend,"]

  const TrendsColumns2 := [
    " SUM(conversions)", " as", " conversions,", " ROUND((SUM(clicks)::DECIMAL", " /",
    " NULLIF(SUM(impressions),", " 0))", " *", " 100,"]

  const TrendsColumns3 := [
    " 2)", " as", " ctr,", " ROUND(SUM(spend)::DECIMAL", " /", " NULLIF(SUM(clicks),",
    " 0),", " 2)", " as", " cpc"]

  lemma TrendsColumnsPlain()
    ensures Plain(TrendsColumns)
  {
    TrendsColumns1Plain();
    TrendsColumns2Plain();
    TrendsColumns3Plain();
  }

  lemma TrendsColumns1Plain()
    ensures Plain(Cat(TrendsColumns1))
  {
    CatPlain(TrendsColumns1);
  }

  lemma TrendsColumns2Plain()
    ensures Plain(Cat(TrendsColumns2))
  {
    assert Plain(TrendsColumns2[0]);
    assert Plain(TrendsColumns2[1]);
    assert Plain(TrendsColumns2[2]);
    assert Plain(TrendsColumns2[3]);
    assert Plain(TrendsColumns2[4]);
    assert Plain(TrendsColumns2[5]);
    assert Plain(TrendsColumns2[6]);
    assert Plain(TrendsColumns2[7]);
    assert Plain(TrendsColumns2[8]);
    CatPlain(TrendsColumns2);
  }

  lemma TrendsColumns3Plain()
    ensures Plain(Cat(TrendsColumns3))
  {
    CatPlain(TrendsColumns3);
  }

  /** The SELECT list of the search query (strands_tools/bing_tools.py:408-419). */
  const SearchColumns := Cat(SearchColumns1) + Cat(SearchColumns2) + Cat(SearchColumns3) + Cat(SearchColumns4) + Cat(SearchColumns5)

  const SearchColumns1 := [
    "SELECT", " campaign_id,", " campaign_name,", " ROUND(SUM(spend),", " 2)", " as",
    " total_spend,", " SUM(conversions)", " as"]

  const SearchColumns2 := [
    " total_conversions,", " SUM(clicks)", " as", " total_clicks,", " SUM(impressions)",
    " as", " total_impressions,", " MIN(date)", " as"]

  const SearchColumns3 := [
    " start_date,", " MAX(date)", " as", " end_date,", " COUNT(DISTINCT", " date)", " as",
    " days_active,", " ROUND((SUM(clicks)::DECIMAL"]

  const SearchColumns4 := [
    " /", " NULLIF(SUM(impressions),", " 0))", " *", " 100,", " 2)", " as", " ctr,",
    " ROUND((SUM(conversions)::DECIMAL", " /"]

  const SearchColumns5 := [
    " NULLIF(SUM(clicks),", " 0))", " *", " 100,", " 2)", " as", " conversion_rate"]

  lemma SearchColumnsPlain()
    ensures Plain(SearchColumns)
  {
    SearchColumns1Plain();
    SearchColumns2Plain();
    SearchColumns3Plain();
    SearchColumns4Plain();
    SearchColumns5Plain();
  }

  lemma SearchColumns1Plain()
    ensures Plain(Cat(SearchColumns1))
  {
    CatPlain(SearchColumns1);
  }

  lemma SearchColumns2Plain()
    ensures Plain(Cat(SearchColumns2))
  {
    CatPlain(SearchColumns2);
  }

  lemma SearchColumns3Plain()
    ensures Plain(Cat(SearchColumns3))
  {
    assert Plain(SearchColumns3[0]);
    assert Plain(SearchColumns3[1]);
    assert Plain(SearchColumns3[2]);
    assert Plain(SearchColumns3[3]);
    assert Plain(SearchColumns3[4]);
    assert Plain(SearchColumns3[5]);
    assert Plain(SearchColumns3[6]);
    assert Plain(SearchColumns3[7]);
    assert Plain(SearchColumns3[8]);
    CatPlain(SearchColumns3);
  }

  lemma SearchColumns4Plain()
    ensures Plain(Cat(SearchColumns4))
  {
    CatPlain(SearchColumns4);
  }

  lemma SearchColumns5Plain()
    ensures Plain(Cat(SearchColumns5))
  {
    CatPlain(SearchColumns5);
  }

}
