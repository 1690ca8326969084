/**
 * The LinkedIn campaign tools (strands-tools/Linkedin_ads_tool.py) over the
 * `linkedin_ads` table: the statements come from the shared campaign
 * module; what each tool returns for what the database answers is stated
 * here.
 */
module Linkedin {
  import opened Sql
  import opened Filters
  import opened Shape
  import opened Campaign

  const Table := "linkedin_ads"

  lemma TablePlain()
    ensures Plain(Table)
  {
  }

  // ---------------------------------------------------------------------
  // linkedin_get_campaign_performance
  // ---------------------------------------------------------------------

  /** The tool: the main query, then the summary query over the same WHERE. */
  function GetCampaignPerformance(a: PerformanceArgs, server: Server): Outcome<NoReport> {
    var q, s := PerformanceStmt(Table, a), SummaryStmt(Table, a);
    PerformanceOutcome(Execute(server, Text(q), Params(q)), Execute(server, Text(s), Params(s)))
  }

  /**
   * Both queries run before anything is returned. The pair comes back only
   * when the summary row and the rows are both non-empty; otherwise the
   * rows alone, possibly none. An error from either query is reported with
   * the tool's prefix.
   */
  function PerformanceOutcome(main: Fetch, summary: Fetch): (r: Outcome<NoReport>)
    ensures r.Failed? <==> main.Raised? || summary.Raised?
    ensures r.Failed? ==>
      r.prefix == RequestFailure && (main == Raised(r.fault) || (main.Fetched? && summary == Raised(r.fault)))
    ensures r.RowsAndSummary? <==>
      main.Fetched? && summary.Fetched? && main.rows != [] && SummaryData(summary.rows) != map[]
    ensures r.RowsAndSummary? ==> r.rows == main.rows && r.summary == summary.rows[0]
    ensures r.Rows? ==> r.rows == main.rows
    ensures r.Failed? || r.RowsAndSummary? || r.Rows?
  {
    match main
    case Raised(f) => Failed(RequestFailure, f)
    case Fetched(rows) =>
      match summary
      case Raised(f) => Failed(RequestFailure, f)
      case Fetched(srows) =>
        var summaryData := SummaryData(srows);
        if summaryData != map[] && rows != [] then RowsAndSummary(rows, summaryData) else Rows(rows)
  }

  /** With plain metric names the tool never fails on the parameter count. */
  lemma PerformanceNeverArity(a: PerformanceArgs, server: Server)
    requires MetricsPlain(a.metrics)
    ensures GetCampaignPerformance(a, server) != Failed(RequestFailure, ArityError)
  {
    TablePlain();
    PerformanceWellFormed(Table, a);
    StmtExecutes(server, PerformanceStmt(Table, a));
    StmtExecutes(server, SummaryStmt(Table, a));
  }

  /**
   * Both statements bind, so the tool's result is decided by what the
   * server answers to the two filled statements alone.
   */
  lemma PerformanceAnswers(a: PerformanceArgs, server: Server)
    requires MetricsPlain(a.metrics)
    ensures WellFormed(PerformanceStmt(Table, a)) && WellFormed(SummaryStmt(Table, a))
    ensures GetCampaignPerformance(a, server)
      == PerformanceOutcome(Answer2Fetch(server(Filled(PerformanceStmt(Table, a)))),
                            Answer2Fetch(server(Filled(SummaryStmt(Table, a)))))
  {
    TablePlain();
    PerformanceWellFormed(Table, a);
    StmtExecutes(server, PerformanceStmt(Table, a));
    StmtExecutes(server, SummaryStmt(Table, a));
  }

  // ---------------------------------------------------------------------
  // linkedin_get_campaign_trends
  // ---------------------------------------------------------------------

  /** The tool: the rows per period, or the no-trend message. */
  function GetCampaignTrends(a: TrendsArgs, server: Server): Outcome<NoReport> {
    var q := TrendsStmt(Table, a);
    RowsOrMessage(TrendsFailure, NoTrendData, Execute(server, Text(q), Params(q)))
  }

  /**
   * The statement binds, so the server's answer alone decides: its rows as
   * fetched, the fixed message for no rows, the error text for a refusal.
   */
  lemma TrendsAnswers(a: TrendsArgs, server: Server)
    ensures WellFormed(TrendsStmt(Table, a))
    ensures GetCampaignTrends(a, server) == RowsOrMessage(TrendsFailure, NoTrendData, Answer2Fetch(server(Filled(TrendsStmt(Table, a)))))
  {
    TablePlain();
    TrendsWellFormed(Table, a);
    StmtExecutes(server, TrendsStmt(Table, a));
  }

  // ---------------------------------------------------------------------
  // linkedin_search_similar_campaigns
  // ---------------------------------------------------------------------

  const NoCampaigns := "No campaigns found matching the specified criteria.\n"

  /** The tool: the matching campaigns, or the no-campaign message. */
  function SearchSimilarCampaigns(a: SearchArgs, server: Server): Outcome<NoReport> {
    var q := SearchStmt(Table, a);
    RowsOrMessage(SearchFailure, NoCampaigns, Execute(server, Text(q), Params(q)))
  }

  /**
   * The statement binds, so the server's answer alone decides: its rows as
   * fetched, the fixed message for no rows, the error text for a refusal.
   */
  lemma SearchAnswers(a: SearchArgs, server: Server)
    ensures WellFormed(SearchStmt(Table, a))
    ensures SearchSimilarCampaigns(a, server) == RowsOrMessage(SearchFailure, NoCampaigns, Answer2Fetch(server(Filled(SearchStmt(Table, a)))))
  {
    TablePlain();
    SearchWellFormed(Table, a);
    StmtExecutes(server, SearchStmt(Table, a));
  }
}
