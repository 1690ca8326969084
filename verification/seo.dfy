/**
 * The SEO organic tools (strands_tools/seo_organic_tools.py): the page
 * analytics listing with its sort whitelist, and the analytics summary
 * with its three groupings.
 */
module Seo {
  import opened Sql
  import opened Filters
  import opened Shape

  const Table := "seo_organic_ads"

  // ---------------------------------------------------------------------
  // Condition texts
  // ---------------------------------------------------------------------

  const UrlLike := "page_url ILIKE " + P
  const AdDateFrom := "ad_date >= " + P
  const AdDateTo := "ad_date <= " + P
  const SessionsAtLeast := "sessions >= " + P
  const BounceAtMost := "bounce_rate <= " + P
  const ConversionsAtLeast := "conversions >= " + P
  const SourceLike := "source ILIKE " + P

  lemma PageTexts()
    ensures OneHole(UrlLike) && OneHole(AdDateFrom) && OneHole(AdDateTo) && OneHole(SourceLike)
  {
    OneSlot("page_url ILIKE ", "");
    assert UrlLike == "page_url ILIKE " + P + "";
    OneSlot("ad_date >= ", "");
    assert AdDateFrom == "ad_date >= " + P + "";
    OneSlot("ad_date <= ", "");
    assert AdDateTo == "ad_date <= " + P + "";
    OneSlot("source ILIKE ", "");
    assert SourceLike == "source ILIKE " + P + "";
  }

  lemma ThresholdTexts()
    ensures OneHole(SessionsAtLeast) && OneHole(BounceAtMost) && OneHole(ConversionsAtLeast)
  {
    OneSlot("sessions >= ", "");
    assert SessionsAtLeast == "sessions >= " + P + "";
    OneSlot("bounce_rate <= ", "");
    assert BounceAtMost == "bounce_rate <= " + P + "";
    OneSlot("conversions >= ", "");
    assert ConversionsAtLeast == "conversions >= " + P + "";
  }

  lemma FromPlain()
    ensures Plain(" FROM " + Table) && Plain(" WHERE ")
  {
    assert Plain(" FROM ") && Plain(Table);
  }

  // ---------------------------------------------------------------------
  // get_page_analytics
  // ---------------------------------------------------------------------

  /** The tool's arguments; `None` is an argument passed as None; defaults are filled by the caller. */
  datatype PageArgs = PageArgs(
    startDate: Option<string>, endDate: Option<string>, pageUrl: Option<string>,
    minSessions: Option<int>, maxBounceRate: Option<real>, minConversions: Option<int>,
    source: Option<string>, sortBy: Option<string>, sortOrder: Option<string>, limit: Option<int>)

  /**
   * The filters in the order the tool tries them: the URL and the source
   * as substrings, the dates by truthiness, the three thresholds by
   * `is not None`.
   */
  function PageFilters(a: PageArgs): seq<Filter> {
    [LikeF(UrlLike, a.pageUrl), TextF(AdDateFrom, a.startDate), TextF(AdDateTo, a.endDate)]
    + [SomeIntF(SessionsAtLeast, a.minSessions), SomeRealF(BounceAtMost, a.maxBounceRate),
       SomeIntF(ConversionsAtLeast, a.minConversions)]
    + [LikeF(SourceLike, a.source)]
  }

  function PageConds(a: PageArgs): seq<Cond> {
    Conds(PageFilters(a))
  }

  /** `sort_mapping`. */
  const PageSorts: map<string, string> := map[
    "ad_date" := "ad_date", "sessions" := "sessions", "conversions" := "conversions",
    "conversion_rate" := "conversions * 100.0 / NULLIF(sessions, 0)", "bounce_rate" := "bounce_rate",
    "avg_session_duration" := "avg_session_duration_sec", "unique_visitors" := "unique_visitors"]

  /**
   * The ORDER BY the tool appends. A mapped key sorts by its expression in
   * the upper-cased order with NULLS LAST, except that `bounce_rate` with
   * `desc` sorts ascending; any other key, the default `date` included,
   * sorts by `ad_date DESC`. A mapped key with no order calls a method on
   * None and raises.
   */
  function PageOrderBy(sortBy: Option<string>, sortOrder: Option<string>): Result<string> {
    if sortBy.Some? && sortBy.value in PageSorts then
      if sortOrder.None? then Err(AttributeError)
      else if sortBy.value == "bounce_rate" && Lower(sortOrder.value) == "desc" then
        Ok(" ORDER BY " + PageSorts[sortBy.value] + " ASC NULLS LAST")
      else
        Ok(" ORDER BY " + PageSorts[sortBy.value] + " " + Upper(sortOrder.value) + " NULLS LAST")
    else Ok(" ORDER BY ad_date DESC")
  }

  /** The page query for a given ORDER BY, with the bound limit last. */
  function PageStmt(a: PageArgs, orderBy: string): Stmt {
    Stmt(PageColumns + " FROM " + Table, " WHERE ", PageConds(a), "", [], orderBy + " LIMIT ", Some(IntParam(a.limit)))
  }

  /** The filter block of the tool. */
  method PageWhere(a: PageArgs) returns (whereConditions: seq<string>, params: seq<Param>)
    ensures whereConditions == Texts(PageConds(a)) && params == Args(PageConds(a))
  {
    ghost var done: seq<Filter>;
    whereConditions, params, done := PageDates(a);
    whereConditions, params, done := AppendFilter(SomeIntF(SessionsAtLeast, a.minSessions), whereConditions, params, [], done);
    whereConditions, params, done := AppendFilter(SomeRealF(BounceAtMost, a.maxBounceRate), whereConditions, params, [], done);
    whereConditions, params, done := AppendFilter(SomeIntF(ConversionsAtLeast, a.minConversions), whereConditions, params, [], done);
    whereConditions, params, done := AppendFilter(LikeF(SourceLike, a.source), whereConditions, params, [], done);
    assert done == PageFilters(a);
  }

  /** The first three steps: the page URL, then the two dates. */
  method PageDates(a: PageArgs) returns (whereConditions: seq<string>, params: seq<Param>, ghost done: seq<Filter>)
    ensures done == [LikeF(UrlLike, a.pageUrl), TextF(AdDateFrom, a.startDate), TextF(AdDateTo, a.endDate)]
    ensures whereConditions == Texts(Conds(done)) && params == [] + Args(Conds(done))
  {
    whereConditions, params, done := [], [], [];
    whereConditions, params, done := AppendFilter(LikeF(UrlLike, a.pageUrl), whereConditions, params, [], done);
    whereConditions, params, done := AppendFilter(TextF(AdDateFrom, a.startDate), whereConditions, params, [], done);
    whereConditions, params, done := AppendFilter(TextF(AdDateTo, a.endDate), whereConditions, params, [], done);
  }

  /**
   * Builds the page query as the tool does: columns, WHERE, the sort step,
   * then `LIMIT %s` with the limit last. The sort step is where a missing
   * order raises.
   */
  method BuildPageQuery(a: PageArgs) returns (query: string, params: seq<Param>, fault: Option<Fault>)
    ensures var o := PageOrderBy(a.sortBy, a.sortOrder);
      && (o.Err? ==> fault == Some(o.fault))
      && (o.Ok? ==> fault == None && query == Text(PageStmt(a, o.value)) && params == Params(PageStmt(a, o.value)))
  {
    query := PageColumns + " FROM " + Table;
    var whereConditions;
    whereConditions, params := PageWhere(a);
    query := AddWhere(query, " WHERE ", whereConditions, PageConds(a));
    var orderBy;
    if a.sortBy.Some? && a.sortBy.value in PageSorts {
      if a.sortOrder.None? {
        return query, params, Some(AttributeError);
      }
      if a.sortBy.value == "bounce_rate" && Lower(a.sortOrder.value) == "desc" {
        orderBy := " ORDER BY " + PageSorts[a.sortBy.value] + " ASC NULLS LAST";
      } else {
        orderBy := " ORDER BY " + PageSorts[a.sortBy.value] + " " + Upper(a.sortOrder.value) + " NULLS LAST";
      }
    } else {
      orderBy := " ORDER BY ad_date DESC";
    }
    var tail := orderBy + " LIMIT ";
    query := query + tail + P;
    params := params + [IntParam(a.limit)];
    fault := None;
    StmtShape(PageStmt(a, orderBy));
  }

  /**
   * Any key outside the mapping, the default `date` included, sorts by
   * `ad_date DESC`; the error comes exactly from a mapped key without an
   * order.
   */
  lemma PageOrderByCases(sortBy: Option<string>, sortOrder: Option<string>)
    ensures "date" !in PageSorts
    ensures sortBy.None? || sortBy.value !in PageSorts ==> PageOrderBy(sortBy, sortOrder) == Ok(" ORDER BY ad_date DESC")
    ensures PageOrderBy(sortBy, sortOrder).Err? <==> sortBy.Some? && sortBy.value in PageSorts && sortOrder.None?
    ensures PageOrderBy(sortBy, sortOrder).Err? ==> PageOrderBy(sortBy, sortOrder).fault == AttributeError
  {
    assert "date" != "ad_date";
  }

  /** A plain order gives a plain ORDER BY: the sort expressions hold no `%`. */
  lemma PageOrderByPlain(sortBy: Option<string>, sortOrder: Option<string>)
    requires sortOrder.Some? ==> Plain(sortOrder.value)
    requires PageOrderBy(sortBy, sortOrder).Ok?
    ensures Plain(PageOrderBy(sortBy, sortOrder).value)
  {
    if sortBy.Some? && sortBy.value in PageSorts {
      PageSortsPlain(sortBy.value);
      UpperPlain(sortOrder.value);
      assert Plain(" ORDER BY ") && Plain(" ASC NULLS LAST") && Plain(" NULLS LAST");
    } else {
      assert Plain(" ORDER BY ad_date DESC");
    }
  }

  lemma PageSortsPlain(k: string)
    requires k in PageSorts
    ensures Plain(PageSorts[k])
  {
    assert Plain("conversions * 100.0 / NULLIF(sessions, 0)");
    assert Plain("avg_session_duration_sec");
  }

  /**
   * Bounce rate is always sorted ascending, lower being better: `desc` is
   * flipped, and `asc` asks for it anyway, whatever the letter case.
   */
  lemma BounceRateAscending(sortOrder: string)
    requires Lower(sortOrder) == "asc" || Lower(sortOrder) == "desc"
    ensures PageOrderBy(Some("bounce_rate"), Some(sortOrder)) == Ok(" ORDER BY " + "bounce_rate" + " ASC NULLS LAST")
  {
    var k := "bounce_rate";
    assert k in PageSorts && PageSorts[k] == k;
    if Lower(sortOrder) != "desc" {
      UpperAsc(sortOrder);
      AscOrderText(" ORDER BY " + k);
    }
  }

  lemma AscOrderText(x: string)
    ensures x + " " + "ASC" + " NULLS LAST" == x + " ASC NULLS LAST"
  {
    assert " " + "ASC" + " NULLS LAST" == " ASC NULLS LAST";
  }

  lemma PageWellFormed(a: PageArgs, orderBy: string)
    requires Plain(orderBy)
    ensures WellFormed(PageStmt(a, orderBy))
  {
    PageColumnsPlain();
    FromPlain();
    assert Plain(" LIMIT ");
    PageCondsSound(a);
  }

  lemma PageCondsSound(a: PageArgs)
    ensures AllSound(PageConds(a))
  {
    PageTexts();
    ThresholdTexts();
    var fs := PageFilters(a);
    assert forall i | 0 <= i < |fs| :: FilterSound(fs[i]);
    CondsSound(fs);
  }

  lemma PageParams(a: PageArgs, orderBy: string)
    ensures Params(PageStmt(a, orderBy))
      == (LikeArg(a.pageUrl) + TextArg(a.startDate) + TextArg(a.endDate))
         + (SomeIntArg(a.minSessions) + SomeRealArg(a.maxBounceRate) + SomeIntArg(a.minConversions))
         + LikeArg(a.source) + [IntParam(a.limit)]
  {
    PageValues(a);
    CondsValues(PageFilters(a));
    StmtShape(PageStmt(a, orderBy));
  }

  lemma PageValues(a: PageArgs)
    ensures Values(PageFilters(a))
      == (LikeArg(a.pageUrl) + TextArg(a.startDate) + TextArg(a.endDate))
         + (SomeIntArg(a.minSessions) + SomeRealArg(a.maxBounceRate) + SomeIntArg(a.minConversions))
         + LikeArg(a.source)
  {
    var f1 := [LikeF(UrlLike, a.pageUrl), TextF(AdDateFrom, a.startDate), TextF(AdDateTo, a.endDate)];
    var f2 := [SomeIntF(SessionsAtLeast, a.minSessions), SomeRealF(BounceAtMost, a.maxBounceRate),
               SomeIntF(ConversionsAtLeast, a.minConversions)];
    var f3 := [LikeF(SourceLike, a.source)];
    Concat(f1, f2);
    Concat(f1 + f2, f3);
    Triple(f1[0], f1[1], f1[2]);
    Triple(f2[0], f2[1], f2[2]);
    Single(f3[0]);
  }

  const PageFailure := "Error retrieving page analytics: "
  const NoPages := "No pages found matching the criteria."

  /** The tool: the sort step, then the rows or the no-page message. */
  function GetPageAnalytics(a: PageArgs, server: Server): Outcome<NoReport> {
    match PageOrderBy(a.sortBy, a.sortOrder)
    case Err(f) => Failed(PageFailure, f)
    case Ok(orderBy) =>
      var q := PageStmt(a, orderBy);
      RowsOrMessage(PageFailure, NoPages, Execute(server, Text(q), Params(q)))
  }

  /**
   * A mapped sort key without an order fails before the query runs;
   * otherwise, with a plain order, the statement binds and the server's
   * answer alone decides.
   */
  lemma PageAnswers(a: PageArgs, server: Server)
    requires a.sortOrder.Some? ==> Plain(a.sortOrder.value)
    ensures PageOrderBy(a.sortBy, a.sortOrder).Err? ==> GetPageAnalytics(a, server) == Failed(PageFailure, AttributeError)
    ensures var o := PageOrderBy(a.sortBy, a.sortOrder);
      o.Ok? ==>
        WellFormed(PageStmt(a, o.value))
        && GetPageAnalytics(a, server)
           == RowsOrMessage(PageFailure, NoPages, Answer2Fetch(server(Filled(PageStmt(a, o.value)))))
  {
    PageOrderByCases(a.sortBy, a.sortOrder);
    var o := PageOrderBy(a.sortBy, a.sortOrder);
    if o.Ok? {
      PageOrderByPlain(a.sortBy, a.sortOrder);
      PageWellFormed(a, o.value);
      StmtExecutes(server, PageStmt(a, o.value));
    }
  }

  // ---------------------------------------------------------------------
  // get_analytics_summary
  // ---------------------------------------------------------------------

  /** The tool's arguments; `None` is an argument passed as None; defaults are filled by the caller. */
  datatype SummaryArgs = SummaryArgs(
    startDate: Option<string>, endDate: Option<string>, source: Option<string>,
    groupBy: Option<string>, daysForTrends: Option<int>)

  datatype Grouping = DailyTrends | BySource | Overall

  /** `daily_trends` and `source` pick their branch; anything else, None included, is overall. */
  function GroupingOf(groupBy: Option<string>): (g: Grouping)
    ensures g == DailyTrends <==> groupBy == Some("daily_trends")
    ensures g == BySource <==> groupBy == Some("source")
  {
    if groupBy == Some("daily_trends") then DailyTrends
    else if groupBy == Some("source") then BySource
    else Overall
  }

  /** `f"... WHERE ad_date >= CURRENT_DATE - INTERVAL '{days_for_trends} DAYS'"`. */
  function DailyHead(daysForTrends: Option<int>): string {
    DailyColumns + " FROM " + Table + " WHERE ad_date >= " + "CURRENT_DATE - INTERVAL '"
    + OptIntText(daysForTrends) + " DAYS'"
  }

  const DailyTail := " GROUP BY ad_date" + " ORDER BY ad_date DESC"
  const SourceTail := " GROUP BY source" + " ORDER BY SUM(sessions) DESC"

  lemma TailsPlain()
    ensures Plain(DailyTail) && Plain(SourceTail) && Plain(" AND ")
  {
    assert Plain(" GROUP BY ad_date") && Plain(" ORDER BY ad_date DESC");
    assert Plain(" GROUP BY source") && Plain(" ORDER BY SUM(sessions) DESC");
  }

  lemma DailyHeadPlain(daysForTrends: Option<int>)
    ensures Plain(DailyHead(daysForTrends))
  {
    DailyColumnsPlain();
    FromPlain();
    assert Plain(" WHERE ad_date >= ") && Plain("CURRENT_DATE - INTERVAL '") && Plain(" DAYS'");
  }

  /** The daily query: a fixed day window in the text, then at most the source, appended with AND. */
  function DailyStmt(a: SummaryArgs): Stmt {
    Stmt(DailyHead(a.daysForTrends), " AND ", Conds([LikeF(SourceLike, a.source)]), "", [],
         DailyTail, None)
  }

  /** The date and source filters of the other two branches. */
  function SummaryFilters(a: SummaryArgs): seq<Filter> {
    [TextF(DateFrom, a.startDate), TextF(DateTo, a.endDate), LikeF(SourceLike, a.source)]
  }

  function BySourceStmt(a: SummaryArgs): Stmt {
    Stmt(SourceColumns + " FROM " + Table, " WHERE ", Conds(SummaryFilters(a)), "", [],
         SourceTail, None)
  }

  function OverallStmt(a: SummaryArgs): Stmt {
    Stmt(OverallColumns + " FROM " + Table, " WHERE ", Conds(SummaryFilters(a)), "", [], "", None)
  }

  /** The statement of the branch `group_by` selects. */
  function SummaryStmtOf(a: SummaryArgs): Stmt {
    match GroupingOf(a.groupBy)
    case DailyTrends => DailyStmt(a)
    case BySource => BySourceStmt(a)
    case Overall => OverallStmt(a)
  }

  /** The date and source block of the per-source and overall branches. */
  method SummaryWhere(a: SummaryArgs) returns (whereConditions: seq<string>, params: seq<Param>)
    ensures whereConditions == Texts(Conds(SummaryFilters(a))) && params == Args(Conds(SummaryFilters(a)))
  {
    whereConditions, params := [], [];
    ghost var done: seq<Filter> := [];
    whereConditions, params, done := AppendFilter(TextF(DateFrom, a.startDate), whereConditions, params, [], done);
    whereConditions, params, done := AppendFilter(TextF(DateTo, a.endDate), whereConditions, params, [], done);
    whereConditions, params, done := AppendFilter(LikeF(SourceLike, a.source), whereConditions, params, [], done);
    assert done == SummaryFilters(a);
  }

  /** Builds the query of the selected branch as the tool does. */
  method BuildSummaryQuery(a: SummaryArgs) returns (query: string, params: seq<Param>)
    ensures query == Text(SummaryStmtOf(a)) && params == Params(SummaryStmtOf(a))
  {
    if a.groupBy == Some("daily_trends") {
      query, params := BuildDailyQuery(a);
    } else if a.groupBy == Some("source") {
      query, params := BuildSourceQuery(a);
    } else {
      query, params := BuildOverallQuery(a);
    }
  }

  /** The per-source branch: WHERE when a filter is given, then the grouping and ordering. */
  method BuildSourceQuery(a: SummaryArgs) returns (query: string, params: seq<Param>)
    ensures query == Text(BySourceStmt(a)) && params == Params(BySourceStmt(a))
  {
    var whereConditions;
    whereConditions, params := SummaryWhere(a);
    query := AddWhere(SourceColumns + " FROM " + Table, " WHERE ", whereConditions, Conds(SummaryFilters(a)));
    query := query + SourceTail;
    StmtShape(BySourceStmt(a));
  }

  /** The overall branch: WHERE when a filter is given, nothing after it. */
  method BuildOverallQuery(a: SummaryArgs) returns (query: string, params: seq<Param>)
    ensures query == Text(OverallStmt(a)) && params == Params(OverallStmt(a))
  {
    var whereConditions;
    whereConditions, params := SummaryWhere(a);
    query := AddWhere(OverallColumns + " FROM " + Table, " WHERE ", whereConditions, Conds(SummaryFilters(a)));
    StmtShape(OverallStmt(a));
    assert Text(OverallStmt(a)) == query + "" + "";
  }

  /** The daily branch: the day window in the text, then `AND source ILIKE %s` for a source. */
  method BuildDailyQuery(a: SummaryArgs) returns (query: string, params: seq<Param>)
    ensures query == Text(DailyStmt(a)) && params == Params(DailyStmt(a))
  {
    var head := DailyHead(a.daysForTrends);
    var section := "";
    params := [];
    DailySection(a);
    if GivenText(a.source) {
      section := " AND " + SourceLike;
      params := params + [Like(a.source.value)];
    }
    query := head + section + DailyTail;
    StmtShape(DailyStmt(a));
    assert LimitText(None) == "";
  }

  /** The optional source condition of the daily query, joined with `AND`. */
  lemma DailySection(a: SummaryArgs)
    ensures Section(" AND ", Conds([LikeF(SourceLike, a.source)]))
      == (if GivenText(a.source) then " AND " + SourceLike else "")
    ensures Args(Conds([LikeF(SourceLike, a.source)]))
      == (if GivenText(a.source) then [Like(a.source.value)] else [])
  {
    var f := LikeF(SourceLike, a.source);
    Single(f);
    if GivenText(a.source) {
      assert Conds([f]) == [Cond(SourceLike, [Like(a.source.value)])];
    }
  }

  lemma DailyWellFormed(a: SummaryArgs)
    ensures WellFormed(DailyStmt(a))
  {
    DailyHeadPlain(a.daysForTrends);
    TailsPlain();
    PageTexts();
    Single(LikeF(SourceLike, a.source));
  }

  /**
   * The daily query binds at most one value, the source as `%source%`: the
   * day window is written into the text.
   */
  lemma DailyParams(a: SummaryArgs)
    ensures Params(DailyStmt(a)) == LikeArg(a.source)
    ensures Plain(DailyHead(a.daysForTrends))
  {
    Single(LikeF(SourceLike, a.source));
    CondsValues([LikeF(SourceLike, a.source)]);
    StmtShape(DailyStmt(a));
    DailyHeadPlain(a.daysForTrends);
  }

  lemma SummaryWellFormed(a: SummaryArgs)
    ensures WellFormed(BySourceStmt(a)) && WellFormed(OverallStmt(a))
  {
    SourceColumnsPlain();
    OverallColumnsPlain();
    FromPlain();
    TailsPlain();
    SummaryCondsSound(a);
  }

  lemma SummaryCondsSound(a: SummaryArgs)
    ensures AllSound(Conds(SummaryFilters(a)))
  {
    PageTexts();
    WindowTexts(None, "days");
    var fs := SummaryFilters(a);
    assert forall i | 0 <= i < |fs| :: FilterSound(fs[i]);
    CondsSound(fs);
  }

  /** The per-source and overall queries bind the start date, the end date and `%source%`, in that order. */
  lemma SummaryParams(a: SummaryArgs)
    ensures Params(BySourceStmt(a)) == TextArg(a.startDate) + TextArg(a.endDate) + LikeArg(a.source)
    ensures Params(OverallStmt(a)) == Params(BySourceStmt(a))
  {
    var fs := SummaryFilters(a);
    Triple(fs[0], fs[1], fs[2]);
    CondsValues(fs);
    StmtShape(BySourceStmt(a));
    StmtShape(OverallStmt(a));
  }

  const SummaryFailure := "Error generating analytics summary: "
  const NoData := "No data found for the specified criteria."

  /** The daily branch's message names the day count as it was passed. */
  function NoDailyData(daysForTrends: Option<int>): string {
    "No trend data available for the last " + OptIntText(daysForTrends) + " days."
  }

  /** The per-source branch's message names the source as it was passed. */
  function NoSourceData(source: Option<string>): string {
    "No trend data available for the source " + OptText(source) + " days."
  }

  /**
   * The overall branch reads one row: none, an empty one or a zero record
   * count is the no-data message; a row without the count column raises.
   */
  function OverallOutcome(main: Fetch): (r: Outcome<NoReport>)
    ensures r.Failed? ==> r.prefix == SummaryFailure
    ensures r.Failed? <==> main.Raised? || (main.rows != [] && main.rows[0] != map[] && "total_records" !in main.rows[0])
    ensures r.Failed? && main.Fetched? ==> r.fault == KeyError("total_records")
    ensures r.OneRow? <==>
      main.Fetched? && main.rows != [] && "total_records" in main.rows[0] && main.rows[0]["total_records"] != Num(0.0)
    ensures r.OneRow? ==> r.row == main.rows[0]
    ensures r.Message? ==> r.text == NoData
    ensures r.Failed? || r.OneRow? || r.Message?
  {
    match main
    case Raised(f) => Failed(SummaryFailure, f)
    case Fetched(rows) =>
      var result := FirstRow(rows);
      if result.None? || result.value == map[] then Message(NoData)
      else if "total_records" !in result.value then Failed(SummaryFailure, KeyError("total_records"))
      else if result.value["total_records"] == Num(0.0) then Message(NoData)
      else OneRow(result.value)
  }

  /** The tool: the branch `group_by` selects, shaped as that branch shapes it. */
  function GetAnalyticsSummary(a: SummaryArgs, server: Server): Outcome<NoReport> {
    var q := SummaryStmtOf(a);
    var main := Execute(server, Text(q), Params(q));
    match GroupingOf(a.groupBy)
    case DailyTrends => RowsOrMessage(SummaryFailure, NoDailyData(a.daysForTrends), main)
    case BySource => RowsOrMessage(SummaryFailure, NoSourceData(a.source), main)
    case Overall => OverallOutcome(main)
  }

  /** Every branch's statement binds, so the server's answer alone decides. */
  lemma SummaryAnswers(a: SummaryArgs, server: Server)
    ensures WellFormed(SummaryStmtOf(a))
    ensures var main := Answer2Fetch(server(Filled(SummaryStmtOf(a))));
      GetAnalyticsSummary(a, server)
      == match GroupingOf(a.groupBy)
         case DailyTrends => RowsOrMessage(SummaryFailure, NoDailyData(a.daysForTrends), main)
         case BySource => RowsOrMessage(SummaryFailure, NoSourceData(a.source), main)
         case Overall => OverallOutcome(main)
  {
    DailyWellFormed(a);
    SummaryWellFormed(a);
    StmtExecutes(server, SummaryStmtOf(a));
  }

  // ---------------------------------------------------------------------
  // Fixed SQL text
  // ---------------------------------------------------------------------

  /** The SELECT list of the page query (strands_tools/seo_organic_tools.py:161-173). */
  const PageColumns := Cat(PageColumns1) + Cat(PageColumns2) + Cat(PageColumns3) + Cat(PageColumns4) + Cat(PageColumns5)

  const PageColumns1 := [
    "SELECT", " ad_date,", " page_url,", " sessions,", " unique_visitors,",
    " ROUND(bounce_rate", " *", " 100,", " 2)", " as", " bounce_rate_pct,"]

  const PageColumns2 := [
    " avg_session_duration_sec,", " ROUND(avg_session_duration_sec", " /", " 60.0,", " 2)",
    " as", " avg_session_duration_min,"]

  const PageColumns3 := [
    " conversions,", " source,", " ROUND(", " CAST(conversions", " *", " 100.0", " /",
    " NULLIF(sessions,", " 0)", " AS", " NUMERIC),", " 2", " )", " as"]

  const PageColumns4 := [
    " conversion_rate_pct,", " ROUND(", " CAST(unique_visitors", " *", " 100.0", " /",
    " NULLIF(sessions,", " 0)", " AS", " NUMERIC),", " 2", " )", " as"]

  const PageColumns5 := [
    " unique_visitor_rate_pct"]

  lemma PageColumnsPlain()
    ensures Plain(PageColumns)
  {
    PageColumns1Plain();
    PageColumns2Plain();
    PageColumns3Plain();
    PageColumns4Plain();
    PageColumns5Plain();
  }

  lemma PageColumns1Plain()
    ensures Plain(Cat(PageColumns1))
  {
    CatPlain(PageColumns1);
  }

  lemma PageColumns2Plain()
    ensures Plain(Cat(PageColumns2))
  {
    assert Plain(PageColumns2[0]);
    assert Plain(PageColumns2[1]);
    assert Plain(PageColumns2[2]);
    assert Plain(PageColumns2[3]);
    assert Plain(PageColumns2[4]);
    assert Plain(PageColumns2[5]);
    assert Plain(PageColumns2[6]);
    CatPlain(PageColumns2);
  }

  lemma PageColumns3Plain()
    ensures Plain(Cat(PageColumns3))
  {
    CatPlain(PageColumns3);
  }

  lemma PageColumns4Plain()
    ensures Plain(Cat(PageColumns4))
  {
    CatPlain(PageColumns4);
  }

  lemma PageColumns5Plain()
    ensures Plain(Cat(PageColumns5))
  {
    CatPlain(PageColumns5);
  }

  /** The SELECT list of the daily trends query (strands_tools/seo_organic_tools.py:292-303). */
  const DailyColumns := Cat(DailyColumns1) + Cat(DailyColumns2) + Cat(DailyColumns3) + Cat(DailyColumns4) + Cat(DailyColumns5)

  const DailyColumns1 := [
    "SELECT", " ad_date,", " COUNT(*)", " as", " daily_pages,", " SUM(sessions)", " as",
    " daily_sessions,", " SUM(unique_visitors)", " as"]

  const DailyColumns2 := [
    " daily_unique_visitors,", " ROUND(AVG(bounce_rate)", " *", " 100,", " 2)", " as",
    " avg_bounce_rate,"]

  const DailyColumns3 := [
    " ROUND(AVG(avg_session_duration_sec)", " /", " 60.0,", " 2)", " as",
    " avg_session_duration_min,", " SUM(conversions)", " as"]

  const DailyColumns4 := [
    " daily_conversions,", " ROUND(", " CAST(SUM(conversions)", " *", " 100.0", " /",
    " NULLIF(SUM(sessions),", " 0)", " AS", " NUMERIC),", " 2", " )"]

  const DailyColumns5 := [
    " as", " daily_conversion_rate"]

  lemma DailyColumnsPlain()
    ensures Plain(DailyColumns)
  {
    DailyColumns1Plain();
    DailyColumns2Plain();
    DailyColumns3Plain();
    DailyColumns4Plain();
    DailyColumns5Plain();
  }

  lemma DailyColumns1Plain()
    ensures Plain(Cat(DailyColumns1))
  {
    CatPlain(DailyColumns1);
  }

  lemma DailyColumns2Plain()
    ensures Plain(Cat(DailyColumns2))
  {
    CatPlain(DailyColumns2);
  }

  lemma DailyColumns3Plain()
    ensures Plain(Cat(DailyColumns3))
  {
    CatPlain(DailyColumns3);
  }

  lemma DailyColumns4Plain()
    ensures Plain(Cat(DailyColumns4))
  {
    CatPlain(DailyColumns4);
  }

  lemma DailyColumns5Plain()
    ensures Plain(Cat(DailyColumns5))
  {
    CatPlain(DailyColumns5);
  }

  /** The SELECT list of the per-source query (strands_tools/seo_organic_tools.py:340-352). */
  const SourceColumns := Cat(SourceColumns1) + Cat(SourceColumns2) + Cat(SourceColumns3) + Cat(SourceColumns4) + Cat(SourceColumns5)

  const SourceColumns1 := [
    "SELECT", " source,", " COUNT(*)", " as", " total_records,", " COUNT(DISTINCT",
    " page_url)", " as", " unique_pages,", " SUM(sessions)", " as"]

  const SourceColumns2 := [
    " total_sessions,", " SUM(unique_visitors)", " as", " total_unique_visitors,",
    " ROUND(AVG(bounce_rate)", " *", " 100,", " 2)", " as"]

  const SourceColumns3 := [
    " avg_bounce_rate,", " ROUND(AVG(avg_session_duration_sec)", " /", " 60.0,", " 2)",
    " as", " avg_session_duration_min,"]

  const SourceColumns4 := [
    " SUM(conversions)", " as", " total_conversions,", " ROUND(", " CAST(SUM(conversions)",
    " *", " 100.0", " /", " NULLIF(SUM(sessions),"]

  const SourceColumns5 := [
    " 0)", " AS", " NUMERIC),", " 2", " )", " as", " conversion_rate"]

  lemma SourceColumnsPlain()
    ensures Plain(SourceColumns)
  {
    SourceColumns1Plain();
    SourceColumns2Plain();
    SourceColumns3Plain();
    SourceColumns4Plain();
    SourceColumns5Plain();
  }

  lemma SourceColumns1Plain()
    ensures Plain(Cat(SourceColumns1))
  {
    CatPlain(SourceColumns1);
  }

  lemma SourceColumns2Plain()
    ensures Plain(Cat(SourceColumns2))
  {
    CatPlain(SourceColumns2);
  }

  lemma SourceColumns3Plain()
    ensures Plain(Cat(SourceColumns3))
  {
    CatPlain(SourceColumns3);
  }

  lemma SourceColumns4Plain()
    ensures Plain(Cat(SourceColumns4))
  {
    CatPlain(SourceColumns4);
  }

  lemma SourceColumns5Plain()
    ensures Plain(Cat(SourceColumns5))
  {
    CatPlain(SourceColumns5);
  }

  /** The SELECT list of the overall query (strands_tools/seo_organic_tools.py:399-417). */
  const OverallColumns := Cat(OverallColumns1) + Cat(OverallColumns2) + Cat(OverallColumns3) + Cat(OverallColumns4) + Cat(OverallColumns5) + Cat(OverallColumns6) + Cat(OverallColumns7)

  const OverallColumns1 := [
    "SELECT", " COUNT(*)", " as", " total_records,", " COUNT(DISTINCT", " page_url)", " as",
    " unique_pages,", " SUM(sessions)", " as"]

  const OverallColumns2 := [
    " total_sessions,", " SUM(unique_visitors)", " as", " total_unique_visitors,",
    " ROUND(AVG(bounce_rate)", " *", " 100,", " 2)", " as"]

  const OverallColumns3 := [
    " avg_bounce_rate,", " ROUND(AVG(avg_session_duration_sec),", " 2)", " as",
    " avg_session_duration,"]

  const OverallColumns4 := [
    " ROUND(AVG(avg_session_duration_sec)", " /", " 60.0,", " 2)", " as",
    " avg_session_duration_min,", " SUM(conversions)", " as"]

  const OverallColumns5 := [
    " total_conversions,", " ROUND(", " CAST(SUM(conversions)", " *", " 100.0", " /",
    " NULLIF(SUM(sessions),", " 0)", " AS", " NUMERIC),", " 2", " )"]

  const OverallColumns6 := [
    " as", " overall_conversion_rate,", " ROUND(", " CAST(SUM(unique_visitors)", " *",
    " 100.0", " /", " NULLIF(SUM(sessions),", " 0)", " AS"]

  const OverallColumns7 := [
    " NUMERIC),", " 2", " )", " as", " unique_visitor_rate,", " MIN(ad_date)", " as",
    " earliest_date,", " MAX(ad_date)", " as", " latest_date"]

  lemma OverallColumnsPlain()
    ensures Plain(OverallColumns)
  {
    OverallColumns1Plain();
    OverallColumns2Plain();
    OverallColumns3Plain();
    OverallColumns4Plain();
    OverallColumns5Plain();
    OverallColumns6Plain();
    OverallColumns7Plain();
  }

  lemma OverallColumns1Plain()
    ensures Plain(Cat(OverallColumns1))
  {
    CatPlain(OverallColumns1);
  }

  lemma OverallColumns2Plain()
    ensures Plain(Cat(OverallColumns2))
  {
    CatPlain(OverallColumns2);
  }

  lemma OverallColumns3Plain()
    ensures Plain(Cat(OverallColumns3))
  {
    CatPlain(OverallColumns3);
  }

  lemma OverallColumns4Plain()
    ensures Plain(Cat(OverallColumns4))
  {
    CatPlain(OverallColumns4);
  }

  lemma OverallColumns5Plain()
    ensures Plain(Cat(OverallColumns5))
  {
    CatPlain(OverallColumns5);
  }

  lemma OverallColumns6Plain()
    ensures Plain(Cat(OverallColumns6))
  {
    CatPlain(OverallColumns6);
  }

  lemma OverallColumns7Plain()
    ensures Plain(Cat(OverallColumns7))
  {
    CatPlain(OverallColumns7);
  }

}
