/**
 * The query assembly the LinkedIn and TikTok campaign tools share
 * (strands-tools/Linkedin_ads_tool.py, tools/tiktok_ads_tool.py): both
 * files build the same three statements, text for text, over their own
 * table. The statements are stated here once, parameterised by the table;
 * each tool's result shaping lives in its own module.
 */
module Campaign {
  import opened Sql
  import opened Filters
  import opened Shape

  // ---------------------------------------------------------------------
  // Condition texts
  // ---------------------------------------------------------------------

  const NameLike := "LOWER(campaign_name) LIKE LOWER(" + P + ")"
  const IdIs := "campaign_id = " + P
  const SpendAtLeast := "SUM(spend) >= " + P
  const ImpressionsAtLeast := "SUM(impressions) >= " + P
  const HasConversions := "SUM(conversions) > 0"
  const NoConversions := "SUM(conversions) = 0"

  lemma WhereTexts()
    ensures OneHole(NameLike) && OneHole(IdIs) && OneHole(DateFrom) && OneHole(DateTo)
  {
    OneSlot("LOWER(campaign_name) LIKE LOWER(", ")");
    OneSlot("campaign_id = ", "");
    assert IdIs == "campaign_id = " + P + "";
    WindowTexts(None, "days");
  }

  lemma HavingTexts()
    ensures OneHole(SpendAtLeast) && OneHole(ImpressionsAtLeast)
    ensures Plain(HasConversions) && Plain(NoConversions)
  {
    OneSlot("SUM(spend) >= ", "");
    assert SpendAtLeast == "SUM(spend) >= " + P + "";
    OneSlot("SUM(impressions) >= ", "");
    assert ImpressionsAtLeast == "SUM(impressions) >= " + P + "";
  }

  lemma FromPlain(table: string)
    requires Plain(table)
    ensures Plain(" FROM " + table) && Plain(" WHERE ")
  {
    assert Plain(" FROM ");
  }

  // ---------------------------------------------------------------------
  // get_campaign_performance
  // ---------------------------------------------------------------------

  /** The tool's arguments; `None` is an argument passed as None; defaults are filled by the caller. */
  datatype PerformanceArgs = PerformanceArgs(
    campaignName: Option<string>, campaignId: Option<string>,
    dateFrom: Option<string>, dateTo: Option<string>, timeOperator: TimeOp,
    metrics: Option<seq<string>>, limit: Option<int>)

  /** The name and id filters, in the order the tool tries them. */
  function PerformanceFilters(a: PerformanceArgs): seq<Filter> {
    [LikeF(NameLike, a.campaignName), TextF(IdIs, a.campaignId)]
  }

  /** The name and id filters, then the date rule. */
  function PerformanceConds(a: PerformanceArgs): seq<Cond> {
    Conds(PerformanceFilters(a)) + DateRule(a.dateFrom, a.dateTo, a.timeOperator)
  }

  const DefaultMetrics := "impressions, clicks, spend, conversions"

  /** `select_clause`: the three key columns, then the chosen metrics or the four defaults. */
  function SelectClause(metrics: Option<seq<string>>): string {
    "date, campaign_id, campaign_name, " + MetricColumns(metrics, DefaultMetrics)
  }

  /** The main query: selected and computed columns, filters, `ORDER BY spend DESC LIMIT %s`. */
  function PerformanceStmt(table: string, a: PerformanceArgs): Stmt {
    Stmt("SELECT " + SelectClause(a.metrics) + PerformanceColumns + " FROM " + table,
         " WHERE ", PerformanceConds(a), "", [], " ORDER BY spend DESC LIMIT ", Some(IntParam(a.limit)))
  }

  /** The summary query: the same WHERE over the aggregate columns, without a limit. */
  function SummaryStmt(table: string, a: PerformanceArgs): Stmt {
    Stmt(SummaryColumns + " FROM " + table, " WHERE ", PerformanceConds(a), "", [], "", None)
  }

  /** The condition block: name, id, then the date step. */
  method PerformanceWhere(a: PerformanceArgs) returns (whereConditions: seq<string>, params: seq<Param>)
    ensures whereConditions == Texts(PerformanceConds(a)) && params == Args(PerformanceConds(a))
  {
    whereConditions, params := [], [];
    ghost var done: seq<Filter> := [];
    whereConditions, params, done := AppendFilter(LikeF(NameLike, a.campaignName), whereConditions, params, [], done);
    whereConditions, params, done := AppendFilter(TextF(IdIs, a.campaignId), whereConditions, params, [], done);
    assert done == PerformanceFilters(a);
    whereConditions, params := AppendDateRule(a.dateFrom, a.dateTo, a.timeOperator, whereConditions, params, Conds(done));
  }

  /** Builds the main query as the tool does, with the bound limit last. */
  method BuildPerformanceQuery(table: string, a: PerformanceArgs)
    returns (query: string, params: seq<Param>, whereConditions: seq<string>)
    ensures query == Text(PerformanceStmt(table, a)) && params == Params(PerformanceStmt(table, a))
    ensures whereConditions == Texts(PerformanceConds(a))
  {
    whereConditions, params := PerformanceWhere(a);
    var selectClause := SelectClause(a.metrics);
    query := "SELECT " + selectClause + PerformanceColumns + " FROM " + table;
    query := AddWhere(query, " WHERE ", whereConditions, PerformanceConds(a));
    var orderBy := " ORDER BY spend DESC LIMIT ";
    query := query + orderBy + P;
    params := params + [IntParam(a.limit)];
    StmtShape(PerformanceStmt(table, a));
  }

  /** Builds the summary query: the same WHERE, bound to `params[:-1]`. */
  method BuildSummaryQuery(table: string, a: PerformanceArgs, whereConditions: seq<string>, params: seq<Param>)
    returns (summaryQuery: string, summaryParams: seq<Param>)
    requires whereConditions == Texts(PerformanceConds(a)) && params == Params(PerformanceStmt(table, a))
    ensures summaryQuery == Text(SummaryStmt(table, a)) && summaryParams == Params(SummaryStmt(table, a))
  {
    summaryQuery := AddWhere(SummaryColumns + " FROM " + table, " WHERE ", whereConditions, PerformanceConds(a));
    summaryParams := params[..|params| - 1];
    StmtShape(SummaryStmt(table, a));
    StmtShape(PerformanceStmt(table, a));
  }

  lemma PerformanceCondsSound(a: PerformanceArgs)
    ensures AllSound(PerformanceConds(a))
  {
    WhereTexts();
    var fs := PerformanceFilters(a);
    assert forall i | 0 <= i < |fs| :: FilterSound(fs[i]);
    CondsSound(fs);
    AllSoundConcat(Conds(fs), DateRule(a.dateFrom, a.dateTo, a.timeOperator));
  }

  /** With a plain table name and plain metric names both statements are well formed. */
  lemma PerformanceWellFormed(table: string, a: PerformanceArgs)
    requires Plain(table) && MetricsPlain(a.metrics)
    ensures WellFormed(PerformanceStmt(table, a)) && WellFormed(SummaryStmt(table, a))
  {
    PerformanceHeadPlain(table, a.metrics);
    SummaryColumnsPlain();
    FromPlain(table);
    assert Plain(" ORDER BY spend DESC LIMIT ");
    PerformanceCondsSound(a);
  }

  lemma PerformanceHeadPlain(table: string, metrics: Option<seq<string>>)
    requires Plain(table) && MetricsPlain(metrics)
    ensures Plain("SELECT " + SelectClause(metrics) + PerformanceColumns + " FROM " + table)
  {
    PerformanceColumnsPlain();
    FromPlain(table);
    assert Plain(DefaultMetrics) && Plain("date, campaign_id, campaign_name, ") && Plain("SELECT ");
    MetricColumnsPlain(metrics, DefaultMetrics);
  }

  /**
   * The SELECT list starts with the three key columns; without metrics (None
   * or an empty list) it carries the four defaults, which are exactly the
   * default `metrics` argument joined.
   */
  lemma SelectClauseCases(metrics: Option<seq<string>>)
    ensures SelectClause(metrics)[..34] == "date, campaign_id, campaign_name, "
    ensures metrics.Some? && metrics.value != [] ==>
      SelectClause(metrics) == "date, campaign_id, campaign_name, " + Join(", ", metrics.value)
    ensures metrics.None? || metrics.value == [] ==>
      SelectClause(metrics) == SelectClause(Some(["impressions", "clicks", "spend", "conversions"]))
  {
    var d := ["impressions", "clicks", "spend", "conversions"];
    assert d[..3] == ["impressions", "clicks", "spend"];
    assert d[..3][..2] == ["impressions", "clicks"];
    assert d[..3][..2][..1] == ["impressions"];
    assert Join(", ", d) == DefaultMetrics;
  }

  /**
   * The main query binds the name as `%name%`, then the id, then the dates
   * of the date rule, then the limit; the summary binds `params[:-1]`,
   * which is everything but the limit.
   */
  lemma PerformanceParams(table: string, a: PerformanceArgs)
    ensures Params(PerformanceStmt(table, a))
      == (LikeArg(a.campaignName) + TextArg(a.campaignId)) + Args(DateRule(a.dateFrom, a.dateTo, a.timeOperator))
         + [IntParam(a.limit)]
    ensures var p := Params(PerformanceStmt(table, a));
      Params(SummaryStmt(table, a)) == p[..|p| - 1]
  {
    var fs := PerformanceFilters(a);
    CondsValues(fs);
    Pair(fs[0], fs[1]);
    ArgsConcat(Conds(fs), DateRule(a.dateFrom, a.dateTo, a.timeOperator));
    StmtShape(PerformanceStmt(table, a));
    StmtShape(SummaryStmt(table, a));
  }

  // ---------------------------------------------------------------------
  // get_campaign_trends
  // ---------------------------------------------------------------------

  /**
   * The tool's arguments; `period` and `metric` are free strings, as
   * Python does not check them. The trend itself is commented out in
   * both files, so `metric` reaches nothing.
   */
  datatype TrendsArgs = TrendsArgs(
    campaignName: Option<string>, period: string, metric: string,
    dateFrom: Option<string>, dateTo: Option<string>, daysBack: Option<int>)

  /** The name filter, then the date window counted in days. */
  function TrendsConds(a: TrendsArgs): seq<Cond> {
    Conds([LikeF(NameLike, a.campaignName)]) + Window(a.dateFrom, a.dateTo, a.daysBack, "days")
  }

  /** One row per period bucket, grouped and ordered by the bucket. */
  function TrendsStmt(table: string, a: TrendsArgs): Stmt {
    var b := PeriodBucket(a.period);
    Stmt("SELECT " + b.format + TrendsColumns + " FROM " + table, " WHERE ", TrendsConds(a), "", [],
         " GROUP BY " + b.group + " ORDER BY " + b.group, None)
  }

  /** The condition block: the name filter, then the window step. */
  method TrendsWhere(a: TrendsArgs) returns (whereConditions: seq<string>, params: seq<Param>)
    ensures whereConditions == Texts(TrendsConds(a)) && params == Args(TrendsConds(a))
  {
    whereConditions, params := [], [];
    ghost var done: seq<Filter> := [];
    whereConditions, params, done := AppendFilter(LikeF(NameLike, a.campaignName), whereConditions, params, [], done);
    assert done == [LikeF(NameLike, a.campaignName)];
    whereConditions, params := AppendWindow(a.dateFrom, a.dateTo, a.daysBack, "days", whereConditions, params, Conds(done));
  }

  /** Builds the trend query as the tool does: conditions, period bucket, then the query text. */
  method BuildTrendsQuery(table: string, a: TrendsArgs) returns (query: string, params: seq<Param>)
    ensures query == Text(TrendsStmt(table, a)) && params == Params(TrendsStmt(table, a))
  {
    var whereConditions;
    whereConditions, params := TrendsWhere(a);
    var b := PeriodBucket(a.period);
    query := "SELECT " + b.format + TrendsColumns + " FROM " + table;
    query := AddWhere(query, " WHERE ", whereConditions, TrendsConds(a));
    var groupBy := " GROUP BY " + b.group + " ORDER BY " + b.group;
    query := query + groupBy;
    StmtShape(TrendsStmt(table, a));
  }

  lemma TrendsWellFormed(table: string, a: TrendsArgs)
    requires Plain(table)
    ensures WellFormed(TrendsStmt(table, a))
  {
    TrendsColumnsPlain();
    PeriodBucketPlain(a.period);
    FromPlain(table);
    assert Plain("SELECT ") && Plain(" GROUP BY ") && Plain(" ORDER BY ");
    WhereTexts();
    var fs := [LikeF(NameLike, a.campaignName)];
    assert FilterSound(fs[0]);
    CondsSound(fs);
    AllSoundConcat(Conds(fs), Window(a.dateFrom, a.dateTo, a.daysBack, "days"));
  }

  /**
   * The trend query always has a WHERE (the date window is never empty)
   * and binds the name as `%name%`, then the start date, then the end date.
   */
  lemma TrendsParams(table: string, a: TrendsArgs)
    ensures Section(" WHERE ", TrendsConds(a)) != ""
    ensures Params(TrendsStmt(table, a)) == LikeArg(a.campaignName) + (TextArg(a.dateFrom) + TextArg(a.dateTo))
  {
    var fs, w := [LikeF(NameLike, a.campaignName)], Window(a.dateFrom, a.dateTo, a.daysBack, "days");
    CondsValues(fs);
    assert fs[..0] == [];
    assert Args(Conds(fs)) == LikeArg(a.campaignName);
    WindowCases(a.dateFrom, a.dateTo, a.daysBack, "days");
    ArgsConcat(Conds(fs), w);
    StmtShape(TrendsStmt(table, a));
  }

  // ---------------------------------------------------------------------
  // search_similar_campaigns
  // ---------------------------------------------------------------------

  /** The tool's arguments; `None` is an argument passed as None; defaults are filled by the caller. */
  datatype SearchArgs = SearchArgs(
    searchTerm: Option<string>, dateFrom: Option<string>, dateTo: Option<string>,
    minSpend: Option<real>, minImpressions: Option<int>, hasConversions: Option<bool>,
    limit: Option<int>)

  /** The WHERE filters: the search term, then each date bound on its own. */
  function SearchWhereFilters(a: SearchArgs): seq<Filter> {
    [LikeF(NameLike, a.searchTerm), TextF(DateFrom, a.dateFrom), TextF(DateTo, a.dateTo)]
  }

  /** The HAVING filters: the two thresholds, then the conversions flag, which binds nothing. */
  function SearchHavingFilters(a: SearchArgs): seq<Filter> {
    [RealF(SpendAtLeast, a.minSpend), IntF(ImpressionsAtLeast, a.minImpressions),
     FlagF(HasConversions, NoConversions, a.hasConversions)]
  }

  /** One row per campaign, filtered after grouping, by total spend, with the bound limit. */
  function SearchStmt(table: string, a: SearchArgs): Stmt {
    Stmt(SearchColumns + " FROM " + table, " WHERE ", Conds(SearchWhereFilters(a)),
         " GROUP BY campaign_name, campaign_id", Conds(SearchHavingFilters(a)),
         " ORDER BY total_spend DESC LIMIT ", Some(IntParam(a.limit)))
  }

  /** The WHERE block: the search term, then each date bound. */
  method SearchWhere(a: SearchArgs) returns (whereConditions: seq<string>, params: seq<Param>)
    ensures whereConditions == Texts(Conds(SearchWhereFilters(a))) && params == Args(Conds(SearchWhereFilters(a)))
  {
    whereConditions, params := [], [];
    ghost var done: seq<Filter> := [];
    whereConditions, params, done := AppendFilter(LikeF(NameLike, a.searchTerm), whereConditions, params, [], done);
    whereConditions, params, done := AppendFilter(TextF(DateFrom, a.dateFrom), whereConditions, params, [], done);
    whereConditions, params, done := AppendFilter(TextF(DateTo, a.dateTo), whereConditions, params, [], done);
    assert done == SearchWhereFilters(a);
  }

  /** The HAVING block: its own condition list, its values appended after the WHERE values. */
  method SearchHaving(a: SearchArgs, params: seq<Param>) returns (havingConditions: seq<string>, params': seq<Param>)
    ensures havingConditions == Texts(Conds(SearchHavingFilters(a)))
    ensures params' == params + Args(Conds(SearchHavingFilters(a)))
  {
    havingConditions, params' := [], params;
    ghost var done: seq<Filter> := [];
    assert params' == params + Args(Conds(done));
    havingConditions, params', done := AppendFilter(RealF(SpendAtLeast, a.minSpend), havingConditions, params', params, done);
    havingConditions, params', done :=
      AppendFilter(IntF(ImpressionsAtLeast, a.minImpressions), havingConditions, params', params, done);
    havingConditions, params', done :=
      AppendFilter(FlagF(HasConversions, NoConversions, a.hasConversions), havingConditions, params', params, done);
    assert done == SearchHavingFilters(a);
  }

  /**
   * Builds the search query as the tool does: the WHERE block, the HAVING
   * block appending to the same parameter list, then the limit.
   */
  method BuildSearchQuery(table: string, a: SearchArgs) returns (query: string, params: seq<Param>)
    ensures query == Text(SearchStmt(table, a)) && params == Params(SearchStmt(table, a))
  {
    var whereConditions, havingConditions;
    whereConditions, params := SearchWhere(a);
    havingConditions, params := SearchHaving(a, params);
    query := SearchColumns + " FROM " + table;
    query := AddWhere(query, " WHERE ", whereConditions, Conds(SearchWhereFilters(a)));
    var groupBy := " GROUP BY campaign_name, campaign_id";
    query := query + groupBy;
    query := AddWhere(query, " HAVING ", havingConditions, Conds(SearchHavingFilters(a)));
    var orderBy := " ORDER BY total_spend DESC LIMIT ";
    query := query + orderBy + P;
    params := params + [IntParam(a.limit)];
  }

  lemma SearchWellFormed(table: string, a: SearchArgs)
    requires Plain(table)
    ensures WellFormed(SearchStmt(table, a))
  {
    SearchFixedPlain(table);
    SearchCondsSound(a);
  }

  lemma SearchFixedPlain(table: string)
    requires Plain(table)
    ensures Plain(SearchColumns + " FROM " + table) && Plain(" WHERE ")
    ensures Plain(" GROUP BY campaign_name, campaign_id") && Plain(" ORDER BY total_spend DESC LIMIT ")
  {
    SearchColumnsPlain();
    FromPlain(table);
  }

  lemma SearchCondsSound(a: SearchArgs)
    ensures AllSound(Conds(SearchWhereFilters(a))) && AllSound(Conds(SearchHavingFilters(a)))
  {
    WhereTexts();
    HavingTexts();
    var ws, hs := SearchWhereFilters(a), SearchHavingFilters(a);
    assert forall i | 0 <= i < |ws| :: FilterSound(ws[i]);
    assert forall i | 0 <= i < |hs| :: FilterSound(hs[i]);
    CondsSound(ws);
    CondsSound(hs);
  }

  /**
   * The search binds the WHERE values (term as `%term%`, start, end), then
   * the HAVING thresholds (spend, impressions), then the limit; the
   * conversions flag binds nothing.
   */
  lemma SearchParams(table: string, a: SearchArgs)
    ensures Params(SearchStmt(table, a))
      == (LikeArg(a.searchTerm) + TextArg(a.dateFrom) + TextArg(a.dateTo))
         + (RealArg(a.minSpend) + IntArg(a.minImpressions)) + [IntParam(a.limit)]
  {
    SearchWhereArgs(a);
    SearchHavingArgs(a);
  }

  lemma SearchWhereArgs(a: SearchArgs)
    ensures Args(Conds(SearchWhereFilters(a))) == LikeArg(a.searchTerm) + TextArg(a.dateFrom) + TextArg(a.dateTo)
  {
    var ws := SearchWhereFilters(a);
    CondsValues(ws);
    Triple(ws[0], ws[1], ws[2]);
  }

  lemma SearchHavingArgs(a: SearchArgs)
    ensures Args(Conds(SearchHavingFilters(a))) == RealArg(a.minSpend) + IntArg(a.minImpressions)
  {
    var hs := SearchHavingFilters(a);
    CondsValues(hs);
    Triple(hs[0], hs[1], hs[2]);
    assert Values(hs) == RealArg(a.minSpend) + IntArg(a.minImpressions) + [];
  }

  /**
   * The HAVING section is emitted exactly when a threshold is truthy or the
   * flag is given; a given flag contributes the last condition, `> 0` for
   * True and `= 0` for False.
   */
  lemma SearchHavingCases(a: SearchArgs)
    ensures var hs := Conds(SearchHavingFilters(a));
      && (hs == [] <==> !GivenReal(a.minSpend) && !GivenInt(a.minImpressions) && a.hasConversions.None?)
      && (a.hasConversions.Some? ==>
            hs[|hs| - 1] == Cond(if a.hasConversions.value then HasConversions else NoConversions, []))
  {
    var fs := SearchHavingFilters(a);
    Triple(fs[0], fs[1], fs[2]);
  }

  // ---------------------------------------------------------------------
  // Results
  // ---------------------------------------------------------------------

  const TrendsFailure := "Error processing trends: "
  const NoTrendData := "No trend data found for the specified criteria."
  const RequestFailure := "Error processing request: "
  const SearchFailure := "Error searching campaigns: "

  // ---------------------------------------------------------------------
  // Fixed SQL text
  // ---------------------------------------------------------------------

  /** The computed columns after the selected ones (strands-tools/Linkedin_ads_tool.py:155-160). */
  const PerformanceColumns := Cat(PerformanceColumns1) + Cat(PerformanceColumns2) + Cat(PerformanceColumns3) + Cat(PerformanceColumns4)

  const PerformanceColumns1 := [
    ",", " ROUND((clicks::DECIMAL", " /", " NULLIF(impressions,", " 0))", " *", " 100,",
    " 2)", " as", " ctr_percent,", " ROUND(spend", " /"]

  const PerformanceColumns2 := [
    " NULLIF(clicks,", " 0),", " 2)", " as", " cpc,", " ROUND((conversions::DECIMAL", " /",
    " NULLIF(impressions,", " 0))", " *", " 100,", " 4)", " as"]

  const PerformanceColumns3 := [
    " conversion_rate,", " ROUND(spend", " /", " NULLIF(conversions,", " 0),", " 2)", " as",
    " cost_per_conversion,"]

  const PerformanceColumns4 := [
    " ROUND((conversions::DECIMAL", " /", " NULLIF(clicks,", " 0))", " *", " 100,", " 2)",
    " as", " click_to_conversion_rate"]

  lemma PerformanceColumnsPlain()
    ensures Plain(PerformanceColumns)
  {
    PerformanceColumns1Plain();
    PerformanceColumns2Plain();
    PerformanceColumns3Plain();
    PerformanceColumns4Plain();
  }

  lemma PerformanceColumns1Plain()
    ensures Plain(Cat(PerformanceColumns1))
  {
    CatPlain(PerformanceColumns1);
  }

  lemma PerformanceColumns2Plain()
    ensures Plain(Cat(PerformanceColumns2))
  {
    CatPlain(PerformanceColumns2);
  }

  lemma PerformanceColumns3Plain()
    ensures Plain(Cat(PerformanceColumns3))
  {
    CatPlain(PerformanceColumns3);
  }

  lemma PerformanceColumns4Plain()
    ensures Plain(Cat(PerformanceColumns4))
  {
    CatPlain(PerformanceColumns4);
  }

  /** The SELECT list of the summary query (strands-tools/Linkedin_ads_tool.py:183-194). */
  const SummaryColumns := Cat(SummaryColumns1) + Cat(SummaryColumns2) + Cat(SummaryColumns3) + Cat(SummaryColumns4) + Cat(SummaryColumns5) + Cat(SummaryColumns6)

  const SummaryColumns1 := [
    "SELECT", " COUNT(*)", " as", " total_campaigns,", " SUM(impressions)", " as",
    " total_impressions,", " SUM(clicks)", " as"]

  const SummaryColumns2 := [
    " total_clicks,", " SUM(spend)", " as", " total_spend,", " SUM(conversions)", " as",
    " total_conversions,"]

  const SummaryColumns3 := [
    " ROUND(AVG(clicks::DECIMAL", " /", " NULLIF(impressions,", " 0)),", " 4)", " as",
    " avg_ctr,", " ROUND(AVG(spend", " /"]

  const SummaryColumns4 := [
    " NULLIF(clicks,", " 0)),", " 2)", " as", " avg_cpc,",
    " ROUND((SUM(conversions)::DECIMAL", " /", " NULLIF(SUM(impressions),", " 0))"]

  const SummaryColumns5 := [
    " *", " 100,", " 4)", " as", " overall_conversion_rate,", " ROUND(SUM(spend)", " /",
    " NULLIF(SUM(conversions),", " 0),", " 2)", " as"]

  const SummaryColumns6 := [
    " avg_cost_per_conversion,", " MIN(date)", " as", " start_date,", " MAX(date)", " as",
    " end_date"]

  lemma SummaryColumnsPlain()
    ensures Plain(SummaryColumns)
  {
    SummaryColumns1Plain();
    SummaryColumns2Plain();
    SummaryColumns3Plain();
    SummaryColumns4Plain();
    SummaryColumns5Plain();
    SummaryColumns6Plain();
  }

  lemma SummaryColumns1Plain()
    ensures Plain(Cat(SummaryColumns1))
  {
    CatPlain(SummaryColumns1);
  }

  lemma SummaryColumns2Plain()
    ensures Plain(Cat(SummaryColumns2))
  {
    CatPlain(SummaryColumns2);
  }

  lemma SummaryColumns3Plain()
    ensures Plain(Cat(SummaryColumns3))
  {
    CatPlain(SummaryColumns3);
  }

  lemma SummaryColumns4Plain()
    ensures Plain(Cat(SummaryColumns4))
  {
    assert Plain(SummaryColumns4[0]);
    assert Plain(SummaryColumns4[1]);
    assert Plain(SummaryColumns4[2]);
    assert Plain(SummaryColumns4[3]);
    assert Plain(SummaryColumns4[4]);
    assert Plain(SummaryColumns4[5]);
    assert Plain(SummaryColumns4[6]);
    assert Plain(SummaryColumns4[7]);
    assert Plain(SummaryColumns4[8]);
    CatPlain(SummaryColumns4);
  }

  lemma SummaryColumns5Plain()
    ensures Plain(Cat(SummaryColumns5))
  {
    CatPlain(SummaryColumns5);
  }

  lemma SummaryColumns6Plain()
    ensures Plain(Cat(SummaryColumns6))
  {
    CatPlain(SummaryColumns6);
  }

  /** The trend columns after the period label (strands-tools/Linkedin_ads_tool.py:322-330). */
  const TrendsColumns := Cat(TrendsColumns1) + Cat(TrendsColumns2) + Cat(TrendsColumns3) + Cat(TrendsColumns4)

  const TrendsColumns1 := [
    " as", " period,", " SUM(impressions)", " as", " impressions,", " SUM(clicks)", " as",
    " clicks,", " SUM(spend)", " as", " spend,"]

  const TrendsColumns2 := [
    " SUM(conversions)", " as", " conversions,", " ROUND(AVG(clicks::DECIMAL", " /",
    " NULLIF(impressions,", " 0)),", " 4)", " as"]

  const TrendsColumns3 := [
    " avg_ctr,", " ROUND(AVG(spend", " /", " NULLIF(clicks,", " 0)),", " 2)", " as",
    " avg_cpc,", " ROUND((SUM(conversions)::DECIMAL", " /"]

  const TrendsColumns4 := [
    " NULLIF(SUM(impressions),", " 0))", " *", " 100,", " 4)", " as", " conversion_rate,",
    " COUNT(*)", " as", " campaign_count"]

  lemma TrendsColumnsPlain()
    ensures Plain(TrendsColumns)
  {
    TrendsColumns1Plain();
    TrendsColumns2Plain();
    TrendsColumns3Plain();
    TrendsColumns4Plain();
  }

  lemma TrendsColumns1Plain()
    ensures Plain(Cat(TrendsColumns1))
  {
    CatPlain(TrendsColumns1);
  }

  lemma TrendsColumns2Plain()
    ensures Plain(Cat(TrendsColumns2))
  {
    CatPlain(TrendsColumns2);
  }

  lemma TrendsColumns3Plain()
    ensures Plain(Cat(TrendsColumns3))
  {
    assert Plain(TrendsColumns3[0]);
    assert Plain(TrendsColumns3[1]);
    assert Plain(TrendsColumns3[2]);
    assert Plain(TrendsColumns3[3]);
    assert Plain(TrendsColumns3[4]);
    assert Plain(TrendsColumns3[5]);
    assert Plain(TrendsColumns3[6]);
    assert Plain(TrendsColumns3[7]);
    assert Plain(TrendsColumns3[8]);
    assert Plain(TrendsColumns3[9]);
    CatPlain(TrendsColumns3);
  }

  lemma TrendsColumns4Plain()
    ensures Plain(Cat(TrendsColumns4))
  {
    CatPlain(TrendsColumns4);
  }

  /** The SELECT list of the search query (strands-tools/Linkedin_ads_tool.py:473-486). */
  const SearchColumns := Cat(SearchColumns1) + Cat(SearchColumns2) + Cat(SearchColumns3) + Cat(SearchColumns4) + Cat(SearchColumns5) + Cat(SearchColumns6)

  const SearchColumns1 := [
    "SELECT", " campaign_name,", " campaign_id,", " SUM(impressions)", " as",
    " total_impressions,", " SUM(clicks)", " as"]

  const SearchColumns2 := [
    " total_clicks,", " SUM(spend)", " as", " total_spend,", " SUM(conversions)", " as",
    " total_conversions,"]

  const SearchColumns3 := [
    " ROUND((SUM(clicks)::DECIMAL", " /", " NULLIF(SUM(impressions),", " 0))", " *", " 100,",
    " 2)", " as", " avg_ctr,", " ROUND(SUM(spend)", " /"]

  const SearchColumns4 := [
    " NULLIF(SUM(clicks),", " 0),", " 2)", " as", " avg_cpc,",
    " ROUND((SUM(conversions)::DECIMAL", " /", " NULLIF(SUM(impressions),"]

  const SearchColumns5 := [
    " 0))", " *", " 100,", " 4)", " as", " conversion_rate,", " ROUND(SUM(spend)", " /",
    " NULLIF(SUM(conversions),", " 0),", " 2)", " as"]

  const SearchColumns6 := [
    " cost_per_conversion,", " MIN(date)", " as", " first_date,", " MAX(date)", " as",
    " last_date,", " COUNT(*)", " as", " total_records"]

  lemma SearchColumnsPlain()
    ensures Plain(SearchColumns)
  {
    SearchColumns1Plain();
    SearchColumns2Plain();
    SearchColumns3Plain();
    SearchColumns4Plain();
    SearchColumns5Plain();
    SearchColumns6Plain();
  }

  lemma SearchColumns1Plain()
    ensures Plain(Cat(SearchColumns1))
  {
    CatPlain(SearchColumns1);
  }

  lemma SearchColumns2Plain()
    ensures Plain(Cat(SearchColumns2))
  {
    CatPlain(SearchColumns2);
  }

  lemma SearchColumns3Plain()
    ensures Plain(Cat(SearchColumns3))
  {
    CatPlain(SearchColumns3);
  }

  lemma SearchColumns4Plain()
    ensures Plain(Cat(SearchColumns4))
  {
    assert Plain(SearchColumns4[0]);
    assert Plain(SearchColumns4[1]);
    assert Plain(SearchColumns4[2]);
    assert Plain(SearchColumns4[3]);
    assert Plain(SearchColumns4[4]);
    assert Plain(SearchColumns4[5]);
    assert Plain(SearchColumns4[6]);
    assert Plain(SearchColumns4[7]);
    CatPlain(SearchColumns4);
  }

  lemma SearchColumns5Plain()
    ensures Plain(Cat(SearchColumns5))
  {
    CatPlain(SearchColumns5);
  }

  lemma SearchColumns6Plain()
    ensures Plain(Cat(SearchColumns6))
  {
    CatPlain(SearchColumns6);
  }

}
