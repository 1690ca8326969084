/**
 * The email marketing tools (tools/email_tools.py) over the
 * `email_campaigns` table: two definitions of `get_campaign_performance`
 * (the second rebinds the name), the summary, and the subject search.
 */
module Email {
  import opened Sql
  import opened Filters
  import opened Shape
  import Campaign

  const Table := "email_campaigns"

  lemma FromPlain()
    ensures Plain(" FROM " + Table) && Plain(" WHERE ")
  {
  }

  // ---------------------------------------------------------------------
  // The module namespace: each `def` binds its name anew
  // ---------------------------------------------------------------------

  datatype Definition = PerformanceFirst | PerformanceSecond | Summary | Trends | SubjectSearch | MarketingAgent

  /** The module's function definitions, in source order, with the name each binds. */
  const Definitions := [("get_campaign_performance", PerformanceFirst), ("get_campaign_performance", PerformanceSecond),
                        ("get_campaign_summary", Summary), ("get_campaign_trends", Trends),
                        ("search_campaigns_by_subject", SubjectSearch), ("Email_marketing_agent", MarketingAgent)]

  /** The names bound after running the definitions in order: a later `def` replaces an earlier one. */
  function Bound(defs: seq<(string, Definition)>): map<string, Definition>
    decreases |defs|
  {
    if defs == [] then map[]
    else Bound(defs[..|defs| - 1])[defs[|defs| - 1].0 := defs[|defs| - 1].1]
  }

  /** A name is bound iff some definition binds it, and it holds the last such definition. */
  lemma {:induction false} BoundMeaning(defs: seq<(string, Definition)>, name: string)
    ensures name in Bound(defs) <==> exists i | 0 <= i < |defs| :: defs[i].0 == name
    ensures name in Bound(defs) ==>
      exists i | 0 <= i < |defs| :: defs[i].0 == name && Bound(defs)[name] == defs[i].1
        && forall j | i < j < |defs| :: defs[j].0 != name
    decreases |defs|
  {
    if defs != [] {
      var init, last := defs[..|defs| - 1], defs[|defs| - 1];
      BoundMeaning(init, name);
      assert forall i | 0 <= i < |init| :: init[i] == defs[i];
      if last.0 != name && name in Bound(defs) {
        var i :| 0 <= i < |init| && init[i].0 == name && Bound(init)[name] == init[i].1
          && forall j | i < j < |init| :: init[j].0 != name;
        assert defs[i].0 == name && Bound(defs)[name] == defs[i].1;
      }
    }
  }

  /**
   * The second `get_campaign_performance` rebinds the name: the first
   * definition is no longer reachable from the module.
   */
  lemma FirstPerformanceShadowed()
    ensures "get_campaign_performance" in Bound(Definitions)
    ensures Bound(Definitions)["get_campaign_performance"] == PerformanceSecond
    ensures forall name | name in Bound(Definitions) :: Bound(Definitions)[name] != PerformanceFirst
  {
    var defs := Definitions;
    assert defs[1].0 == defs[0].0;
    assert forall k | 1 <= k < |defs| :: defs[k].1 != PerformanceFirst;
    forall name | name in Bound(defs)
      ensures Bound(defs)[name] != PerformanceFirst
    {
      BoundMeaning(defs, name);
      var i :| 0 <= i < |defs| && defs[i].0 == name && Bound(defs)[name] == defs[i].1
        && forall j | i < j < |defs| :: defs[j].0 != name;
    }
    BoundMeaning(defs, "get_campaign_performance");
    assert defs[1].0 == "get_campaign_performance";
  }

  // ---------------------------------------------------------------------
  // The first get_campaign_performance (shadowed)
  // ---------------------------------------------------------------------

  /** The first definition's arguments; `None` is an argument passed as None; defaults are filled by the caller. */
  datatype LegacyArgs = LegacyArgs(
    startDate: Option<string>, endDate: Option<string>, minOpenRate: Option<real>,
    minClickRate: Option<real>, campaignId: Option<string>, limit: Option<int>)

  /**
   * A float written into SQL text: sign, integer part, `.` and six
   * fractional digits. It never holds a `%`.
   */
  function FloatText(x: real): (r: string)
    ensures Plain(r)
  {
    var m := if x < 0.0 then -x else x;
    var whole := m.Floor;
    var frac := ((m - whole as real) * 1000000.0).Floor;
    assert 0.0 <= m - whole as real;
    (if x < 0.0 then "-" else "") + IntText(whole) + "." + IntText(frac)
  }

  /** The campaign id, written into the text between quotes and also appended as a value. */
  function IdCond(a: LegacyArgs): seq<Cond> {
    if GivenText(a.campaignId) then [Cond("campaign_id = '" + a.campaignId.value + "'", [PText(a.campaignId.value)])]
    else []
  }

  function StartCond(a: LegacyArgs): seq<Cond> {
    if GivenText(a.startDate) then [Cond("date >= " + a.startDate.value, [PText(a.startDate.value)])] else []
  }

  function EndCond(a: LegacyArgs): seq<Cond> {
    if GivenText(a.endDate) then [Cond("date <= " + a.endDate.value, [PText(a.endDate.value)])] else []
  }

  /** A rate threshold is written as given and appended divided by 100; 0.0 counts as given. */
  function OpenCond(a: LegacyArgs): seq<Cond> {
    if a.minOpenRate.Some? then
      [Cond("open_rate >= " + FloatText(a.minOpenRate.value), [PReal(a.minOpenRate.value / 100.0)])]
    else []
  }

  function ClickCond(a: LegacyArgs): seq<Cond> {
    if a.minClickRate.Some? then
      [Cond("click_through_rate >= " + FloatText(a.minClickRate.value), [PReal(a.minClickRate.value / 100.0)])]
    else []
  }

  /** The conditions in the order the first definition appends them. */
  function LegacyConds(a: LegacyArgs): seq<Cond> {
    IdCond(a) + StartCond(a) + EndCond(a) + OpenCond(a) + ClickCond(a)
  }

  /** The first definition's text: every value and the limit are written into it. */
  function LegacyText(a: LegacyArgs): string {
    LegacyColumns + " FROM " + Table + Section(" WHERE ", LegacyConds(a)) + " ORDER BY date DESC LIMIT "
    + OptIntText(a.limit)
  }

  /** The first definition's parameter list: the values appended beside the text, then the limit. */
  function LegacyParams(a: LegacyArgs): seq<Param> {
    Args(LegacyConds(a)) + [IntParam(a.limit)]
  }

  /** The condition block: id, start, end, then the two rate thresholds. */
  method LegacyWhere(a: LegacyArgs) returns (whereConditions: seq<string>, params: seq<Param>)
    ensures whereConditions == Texts(LegacyConds(a)) && params == Args(LegacyConds(a))
  {
    ghost var cs: seq<Cond>;
    whereConditions, params, cs := LegacyDates(a);
    whereConditions, params, cs := LegacyRates(a, whereConditions, params, cs);
    assert cs == LegacyConds(a);
  }

  /** The last two steps: the open rate, then the click-through rate. */
  method LegacyRates(a: LegacyArgs, whereConditions: seq<string>, params: seq<Param>, ghost cs: seq<Cond>)
    returns (whereConditions': seq<string>, params': seq<Param>, ghost cs': seq<Cond>)
    requires whereConditions == Texts(cs) && params == Args(cs)
    ensures cs' == cs + OpenCond(a) + ClickCond(a)
    ensures whereConditions' == Texts(cs') && params' == Args(cs')
  {
    whereConditions', params', cs' := OpenStep(a, whereConditions, params, cs);
    whereConditions', params', cs' := ClickStep(a, whereConditions', params', cs');
  }

  /** `if min_open_rate is not None`: the open-rate clause and its value. */
  method OpenStep(a: LegacyArgs, whereConditions: seq<string>, params: seq<Param>, ghost cs: seq<Cond>)
    returns (whereConditions': seq<string>, params': seq<Param>, ghost cs': seq<Cond>)
    requires whereConditions == Texts(cs) && params == Args(cs)
    ensures cs' == cs + OpenCond(a)
    ensures whereConditions' == Texts(cs') && params' == Args(cs')
  {
    whereConditions', params', cs' := whereConditions, params, cs;
    if a.minOpenRate.Some? {
      var c := Cond("open_rate >= " + FloatText(a.minOpenRate.value), [PReal(a.minOpenRate.value / 100.0)]);
      Push(cs', c);
      whereConditions', params', cs' := whereConditions' + [c.text], params' + c.args, cs' + [c];
    }
  }

  /** `if min_click_rate is not None`: the click-through clause and its value. */
  method ClickStep(a: LegacyArgs, whereConditions: seq<string>, params: seq<Param>, ghost cs: seq<Cond>)
    returns (whereConditions': seq<string>, params': seq<Param>, ghost cs': seq<Cond>)
    requires whereConditions == Texts(cs) && params == Args(cs)
    ensures cs' == cs + ClickCond(a)
    ensures whereConditions' == Texts(cs') && params' == Args(cs')
  {
    whereConditions', params', cs' := whereConditions, params, cs;
    if a.minClickRate.Some? {
      var c := Cond("click_through_rate >= " + FloatText(a.minClickRate.value), [PReal(a.minClickRate.value / 100.0)]);
      Push(cs', c);
      whereConditions', params', cs' := whereConditions' + [c.text], params' + c.args, cs' + [c];
    }
  }

  /** The first three steps: the campaign id, then the start and end dates. */
  method LegacyDates(a: LegacyArgs) returns (whereConditions: seq<string>, params: seq<Param>, ghost cs: seq<Cond>)
    ensures cs == IdCond(a) + StartCond(a) + EndCond(a)
    ensures whereConditions == Texts(cs) && params == Args(cs)
  {
    whereConditions, params, cs := [], [], [];
    if GivenText(a.campaignId) {
      var c := Cond("campaign_id = '" + a.campaignId.value + "'", [PText(a.campaignId.value)]);
      Push(cs, c);
      whereConditions, params, cs := whereConditions + [c.text], params + c.args, cs + [c];
    }
    assert cs == IdCond(a);
    if GivenText(a.startDate) {
      var c := Cond("date >= " + a.startDate.value, [PText(a.startDate.value)]);
      Push(cs, c);
      whereConditions, params, cs := whereConditions + [c.text], params + c.args, cs + [c];
    }
    assert cs == IdCond(a) + StartCond(a);
    if GivenText(a.endDate) {
      var c := Cond("date <= " + a.endDate.value, [PText(a.endDate.value)]);
      Push(cs, c);
      whereConditions, params, cs := whereConditions + [c.text], params + c.args, cs + [c];
    }
  }

  /** Builds the first definition's query and parameter list as it does. */
  method BuildLegacyQuery(a: LegacyArgs) returns (query: string, params: seq<Param>)
    ensures query == LegacyText(a) && params == LegacyParams(a)
  {
    var whereConditions;
    whereConditions, params := LegacyWhere(a);
    query := AddWhere(LegacyColumns + " FROM " + Table, " WHERE ", whereConditions, LegacyConds(a));
    query := query + " ORDER BY date DESC LIMIT " + OptIntText(a.limit);
    params := params + [IntParam(a.limit)];
  }

  const LegacyFailure := "Error retrieving campaign data: "

  /** The first definition as a tool: execute, then the undefined `result` is printed. */
  function LegacyPerformance(a: LegacyArgs, server: Server): Outcome<NoReport> {
    LegacyOutcome(Execute(server, LegacyText(a), LegacyParams(a)))
  }

  /**
   * After `fetchall` the definition prints `result`, a name it never
   * assigns: every path ends in its `except`.
   */
  function LegacyOutcome(main: Fetch): (r: Outcome<NoReport>)
    ensures r.Failed? && r.prefix == LegacyFailure
    ensures main.Raised? ==> r.fault == main.fault
    ensures main.Fetched? ==> r.fault == NameError("result")
  {
    match main
    case Raised(f) => Failed(LegacyFailure, f)
    case Fetched(_) => Failed(LegacyFailure, NameError("result"))
  }

  /** Texts without `%` stay without `%` once written into the conditions. */
  predicate PlainValues(a: LegacyArgs) {
    (a.campaignId.Some? ==> Plain(a.campaignId.value))
    && (a.startDate.Some? ==> Plain(a.startDate.value))
    && (a.endDate.Some? ==> Plain(a.endDate.value))
  }

  /** Every condition text is free of `%`. */
  predicate TextsFree(cs: seq<Cond>) {
    forall i | 0 <= i < |cs| :: Plain(cs[i].text)
  }

  lemma TextsFreeConcat(x: seq<Cond>, y: seq<Cond>)
    requires TextsFree(x) && TextsFree(y)
    ensures TextsFree(x + y)
  {
    forall i | 0 <= i < |x + y|
      ensures Plain((x + y)[i].text)
    {
      if i >= |x| {
        assert (x + y)[i] == y[i - |x|];
      }
    }
  }

  lemma {:induction false} TextsPlain(cs: seq<Cond>)
    requires TextsFree(cs)
    ensures forall i | 0 <= i < |cs| :: Plain(Texts(cs)[i])
    decreases |cs|
  {
    if cs != [] {
      TextsPlain(cs[..|cs| - 1]);
    }
  }

  lemma LegacyCondsFree(a: LegacyArgs)
    requires PlainValues(a)
    ensures TextsFree(LegacyConds(a))
  {
    DatesFree(a);
    RatesFree(a);
    TextsFreeConcat(IdCond(a) + StartCond(a) + EndCond(a), OpenCond(a) + ClickCond(a));
    assert LegacyConds(a) == (IdCond(a) + StartCond(a) + EndCond(a)) + (OpenCond(a) + ClickCond(a));
  }

  lemma DatesFree(a: LegacyArgs)
    requires PlainValues(a)
    ensures TextsFree(IdCond(a) + StartCond(a) + EndCond(a))
  {
    if GivenText(a.campaignId) {
      PlainCat("campaign_id = '", a.campaignId.value);
      PlainCat("campaign_id = '" + a.campaignId.value, "'");
    }
    if GivenText(a.startDate) {
      PlainCat("date >= ", a.startDate.value);
    }
    if GivenText(a.endDate) {
      PlainCat("date <= ", a.endDate.value);
    }
    TextsFreeConcat(IdCond(a), StartCond(a));
    TextsFreeConcat(IdCond(a) + StartCond(a), EndCond(a));
  }

  lemma RatesFree(a: LegacyArgs)
    ensures TextsFree(OpenCond(a) + ClickCond(a))
  {
    OpenFree(a);
    ClickFree(a);
    TextsFreeConcat(OpenCond(a), ClickCond(a));
  }

  lemma OpenFree(a: LegacyArgs)
    ensures TextsFree(OpenCond(a))
  {
    if a.minOpenRate.Some? {
      assert Plain("open_rate >= ");
      PlainCat("open_rate >= ", FloatText(a.minOpenRate.value));
    }
  }

  lemma ClickFree(a: LegacyArgs)
    ensures TextsFree(ClickCond(a))
  {
    if a.minClickRate.Some? {
      assert Plain("click_through_rate >= ");
      PlainCat("click_through_rate >= ", FloatText(a.minClickRate.value));
    }
  }

  /** The WHERE section of the first definition is free of `%` when its values are. */
  lemma LegacyWherePlain(a: LegacyArgs)
    requires PlainValues(a)
    ensures Plain(Section(" WHERE ", LegacyConds(a)))
  {
    var cs := LegacyConds(a);
    LegacyCondsFree(a);
    TextsPlain(cs);
    JoinPlain(" AND ", Texts(cs));
    if cs != [] {
      PlainCat(" WHERE ", Join(" AND ", Texts(cs)));
    }
  }

  lemma LegacyHeadPlain()
    ensures Plain(LegacyColumns + " FROM " + Table)
  {
    LegacyColumnsPlain();
    FromPlain();
    PlainCat(LegacyColumns, " FROM " + Table);
    assert LegacyColumns + " FROM " + Table == LegacyColumns + (" FROM " + Table);
  }

  /** With values free of `%`, the first definition's whole text is free of `%`. */
  lemma LegacyPlain(a: LegacyArgs)
    requires PlainValues(a)
    ensures Plain(LegacyText(a))
  {
    var head, where := LegacyColumns + " FROM " + Table, Section(" WHERE ", LegacyConds(a));
    LegacyWherePlain(a);
    LegacyHeadPlain();
    PlainCat(head, where);
    LegacyOrderPlain(head + where, OptIntText(a.limit));
  }

  lemma LegacyOrderPlain(s: string, limit: string)
    requires Plain(s) && Plain(limit)
    ensures Plain(s + " ORDER BY date DESC LIMIT " + limit)
  {
    assert Plain(" ORDER BY date DESC LIMIT ");
    PlainCat(s, " ORDER BY date DESC LIMIT ");
  }

  /**
   * With values free of `%` the first definition's text has no placeholder
   * while its parameter list always holds at least the limit; psycopg2 then
   * sends the text as it is and drops the parameters, so the interpolated
   * text reaches the server, and the tool ends in its error text either
   * with the server's error or with the undefined `result`.
   */
  lemma LegacyReachesServer(a: LegacyArgs, server: Server)
    requires PlainValues(a)
    ensures Holes(LegacyText(a)) == 0 && |LegacyParams(a)| >= 1
    ensures LegacyPerformance(a, server) == LegacyOutcome(Answer2Fetch(server(Chars(LegacyText(a)))))
    ensures server(Chars(LegacyText(a))).Answered? ==>
      LegacyPerformance(a, server) == Failed(LegacyFailure, NameError("result"))
    ensures server(Chars(LegacyText(a))).Refused? ==>
      LegacyPerformance(a, server) == Failed(LegacyFailure, DatabaseError(server(Chars(LegacyText(a))).message))
  {
    LegacyPlain(a);
    FillPlain(LegacyText(a));
  }

  // ---------------------------------------------------------------------
  // The second get_campaign_performance: top campaigns by a metric
  // ---------------------------------------------------------------------

  /** The tool's arguments; `metric` defaults to `"conversion_rate"` and `limit` to 3 at the call site. */
  datatype TopArgs = TopArgs(
    startDate: Option<string>, endDate: Option<string>, metric: Option<string>, limit: Option<int>,
    campaignId: Option<string>)

  /** `metric_mapping`: the ranked expression of each accepted metric. */
  const MetricMapping := map["conversion_rate" := "conversions * 100.0" + " / NULLIF(emails_sent, 0)",
                             "open_rate" := "open_rate * 100",
                             "click_through_rate" := "click_through_rate * 100"]

  /** The mapping's keys in insertion order. */
  const MetricKeys := ["conversion_rate", "open_rate", "click_through_rate"]

  const InvalidMetric := "Invalid metric. Choose from: " + Join(", ", MetricKeys)

  /** The keys listed in the message are exactly the accepted metrics. */
  lemma MetricKeysMatch()
    ensures forall m :: m in MetricMapping <==> m in MetricKeys
  {
  }

  /** `metric not in metric_mapping`; `None` is not a key. */
  predicate ValidMetric(metric: Option<string>) {
    metric.Some? && metric.value in MetricMapping
  }

  const SentPositive := "emails_sent > 0"

  /** The fixed condition, then start, end and campaign id. */
  function TopFilters(a: TopArgs): seq<Filter> {
    [FixedF(SentPositive), TextF(DateFrom, a.startDate), TextF(DateTo, a.endDate), TextF(Campaign.IdIs, a.campaignId)]
  }

  /** The ordering of each accepted metric; the branch text goes on with `LIMIT %s`. */
  function OrderBody(m: string): string {
    if m == "conversion_rate" then " " + ConversionOrder
    else if m == "open_rate" then " " + OpenOrder
    else " " + ClickOrder
  }

  /** The `if`/`elif` chain over the metric: no branch is taken for any other metric. */
  function OrderFor(m: string): string {
    if m in MetricMapping then OrderBody(m) + " LIMIT " else ""
  }

  /** The columns, with the metric's expression ranked as `metric_value`. */
  function TopHead(m: string): string
    requires m in MetricMapping
  {
    TopColumns + MetricMapping[m] + " AS NUMERIC), 2 )" + " AS metric_value" + " FROM " + Table
  }

  function TopStmt(a: TopArgs, m: string): Stmt
    requires m in MetricMapping
  {
    Stmt(TopHead(m), " WHERE ", Conds(TopFilters(a)), "", [], OrderFor(m), Some(IntParam(a.limit)))
  }

  /** The condition block: the fixed condition, then start, end and campaign id. */
  method TopWhere(a: TopArgs) returns (whereConditions: seq<string>, params: seq<Param>)
    ensures whereConditions == Texts(Conds(TopFilters(a))) && params == Args(Conds(TopFilters(a)))
  {
    whereConditions, params := [SentPositive], [];
    ghost var done: seq<Filter> := [FixedF(SentPositive)];
    Single(FixedF(SentPositive));
    whereConditions, params, done := AppendFilter(TextF(DateFrom, a.startDate), whereConditions, params, [], done);
    whereConditions, params, done := AppendFilter(TextF(DateTo, a.endDate), whereConditions, params, [], done);
    whereConditions, params, done := AppendFilter(TextF(Campaign.IdIs, a.campaignId), whereConditions, params, [], done);
    assert done == TopFilters(a);
  }

  /** Builds the ranking query as the tool does once the metric is accepted. */
  method BuildTopQuery(a: TopArgs, m: string) returns (query: string, params: seq<Param>)
    requires m in MetricMapping
    ensures query == Text(TopStmt(a, m)) && params == Params(TopStmt(a, m))
  {
    var whereConditions;
    whereConditions, params := TopWhere(a);
    TopCondsFirst(a);
    var where := " WHERE " + Join(" AND ", whereConditions);
    assert where == Section(" WHERE ", Conds(TopFilters(a)));
    query := TopHead(m) + where;
    if m == "conversion_rate" {
      query := query + (" " + ConversionOrder + " LIMIT ") + P;
    } else if m == "open_rate" {
      query := query + (" " + OpenOrder + " LIMIT ") + P;
    } else if m == "click_through_rate" {
      query := query + (" " + ClickOrder + " LIMIT ") + P;
    }
    params := params + [IntParam(a.limit)];
    StmtShape(TopStmt(a, m));
  }

  /** The WHERE list is never empty: it starts with `emails_sent > 0`. */
  lemma TopCondsFirst(a: TopArgs)
    ensures Conds(TopFilters(a)) != [] && Conds(TopFilters(a))[0] == Cond(SentPositive, [])
  {
    var fs := TopFilters(a);
    assert fs == [fs[0]] + fs[1..];
    ConcatConds([fs[0]], fs[1..]);
    Single(fs[0]);
  }

  /** Start, end and campaign id each bind one value, in that order; the limit is bound last. */
  lemma TopParams(a: TopArgs, m: string)
    requires m in MetricMapping
    ensures Params(TopStmt(a, m)) == (TextArg(a.startDate) + TextArg(a.endDate)) + TextArg(a.campaignId) + [IntParam(a.limit)]
  {
    TopValues(a);
    StmtShape(TopStmt(a, m));
  }

  lemma TopValues(a: TopArgs)
    ensures Args(Conds(TopFilters(a))) == (TextArg(a.startDate) + TextArg(a.endDate)) + TextArg(a.campaignId)
  {
    var fs := TopFilters(a);
    CondsValues(fs);
    Quad(fs[0], fs[1], fs[2], fs[3]);
    assert Values(fs) == [] + TextArg(a.startDate) + TextArg(a.endDate) + TextArg(a.campaignId);
  }

  /** Every accepted metric's ordering is fixed text ending in `LIMIT `, where the limit binds. */
  lemma OrderEndsInLimit(m: string)
    requires m in MetricMapping
    ensures Plain(OrderFor(m)) && |OrderFor(m)| >= 7
    ensures OrderFor(m)[|OrderFor(m)| - 7..] == " LIMIT "
  {
    OrderBodyPlain(m);
    var b := OrderBody(m);
    assert (b + " LIMIT ")[|b|..] == " LIMIT ";
  }

  lemma OrderBodyPlain(m: string)
    ensures Plain(OrderBody(m))
  {
    ConversionOrderPlain();
    OpenOrderPlain();
    ClickOrderPlain();
  }

  lemma TopHeadPlain(m: string)
    requires m in MetricMapping
    ensures Plain(TopHead(m))
  {
    TopColumnsPlain();
    FromPlain();
    assert Plain(" AS NUMERIC), 2 )") && Plain(" AS metric_value");
    assert Plain(MetricMapping[m]) by {
      assert Plain("conversions * 100.0") && Plain(" / NULLIF(emails_sent, 0)");
    }
  }

  lemma TopWellFormed(a: TopArgs, m: string)
    requires m in MetricMapping
    ensures WellFormed(TopStmt(a, m))
  {
    TopHeadPlain(m);
    OrderEndsInLimit(m);
    Campaign.WhereTexts();
    var fs := TopFilters(a);
    assert FilterSound(fs[0]) by { assert Plain(SentPositive); }
    assert forall i | 0 <= i < |fs| :: FilterSound(fs[i]);
    CondsSound(fs);
  }

  /** How the report is headed: singular when `limit == 1`, otherwise the number of rows returned. */
  datatype Heading = TopOne | TopN(n: nat)

  /** `metric.replace("_", " ").title()` for the accepted metrics. */
  function Display(m: string): string {
    if m == "conversion_rate" then "Conversion Rate"
    else if m == "open_rate" then "Open Rate"
    else "Click Through Rate"
  }

  /** The percentage column shown for each accepted metric. */
  function MetricColumn(m: string): string {
    if m == "conversion_rate" then "conversion_rate_pct"
    else if m == "open_rate" then "open_rate_pct"
    else "click_rate_pct"
  }

  /** One ranked line: the metric's value is read first, then the line is written. */
  function TopFields(m: string): seq<Field> {
    [Shown(MetricColumn(m)), Shown("subject_line"), Shown("date"), Number("emails_sent"), Shown("conversions"),
     Shown("open_rate_pct"), Shown("click_rate_pct")]
  }

  /** The values the ranking report is written from; its layout is not modelled. */
  datatype TopReport = TopReport(heading: Heading, display: string, rows: seq<Row>)

  const TopFailure := "Error retrieving top campaigns: "
  const NoTopCampaigns := "No campaigns found."

  /** The tool: an unknown metric is refused before any query; otherwise the ranking. */
  function GetCampaignPerformance(a: TopArgs, server: Server): Outcome<TopReport> {
    if !ValidMetric(a.metric) then Message(InvalidMetric)
    else
      var q := TopStmt(a, a.metric.value);
      TopOutcome(a.metric.value, a.limit, Execute(server, Text(q), Params(q)))
  }

  /**
   * No rows give the fixed message; otherwise one line per campaign under
   * a heading that is singular exactly when the limit is 1.
   */
  function TopOutcome(m: string, limit: Option<int>, main: Fetch): (r: Outcome<TopReport>)
    ensures r.Message? <==> main == Fetched([])
    ensures r.Message? ==> r.text == NoTopCampaigns
    ensures r.Report? <==>
      main.Fetched? && main.rows != [] && forall i | 0 <= i < |main.rows| :: FieldsFault(main.rows[i], TopFields(m)).None?
    ensures r.Report? ==>
      r.report.rows == main.rows && r.report.display == Display(m)
      && (r.report.heading == TopOne <==> limit == Some(1))
      && (r.report.heading.TopN? ==> r.report.heading.n == |main.rows|)
    ensures r.Failed? ==> r.prefix == TopFailure && (main == Raised(r.fault) || DataFault(r.fault))
    ensures r.Message? || r.Report? || r.Failed?
  {
    match main
    case Raised(f) => Failed(TopFailure, f)
    case Fetched(rows) =>
      if rows == [] then Message(NoTopCampaigns)
      else
        RowsFaultMeaning(rows, TopFields(m));
        match RowsFault(rows, TopFields(m))
        case Some(f) => Failed(TopFailure, f)
        case None =>
          var heading := if limit == Some(1) then TopOne else TopN(|rows|);
          Report(TopReport(heading, Display(m), rows))
  }

  /**
   * The invalid-metric message is the answer exactly when the metric is
   * not a key of the mapping, whatever the server holds.
   */
  lemma InvalidMetricRefused(a: TopArgs, server: Server)
    ensures GetCampaignPerformance(a, server) == Message(InvalidMetric) <==> !ValidMetric(a.metric)
  {
    assert InvalidMetric[0] == 'I' && NoTopCampaigns[0] == 'N';
  }

  /** With an accepted metric the statement binds, and the server's answer alone decides. */
  lemma TopAnswers(a: TopArgs, server: Server)
    requires ValidMetric(a.metric)
    ensures WellFormed(TopStmt(a, a.metric.value))
    ensures GetCampaignPerformance(a, server)
      == TopOutcome(a.metric.value, a.limit, Answer2Fetch(server(Filled(TopStmt(a, a.metric.value)))))
  {
    TopWellFormed(a, a.metric.value);
    StmtExecutes(server, TopStmt(a, a.metric.value));
  }

  // ---------------------------------------------------------------------
  // get_campaign_summary
  // ---------------------------------------------------------------------

  datatype SummaryArgs = SummaryArgs(campaignId: Option<string>, startDate: Option<string>, endDate: Option<string>)

  /** Campaign id, start, end: each one condition and one value. */
  function SummaryFilters(a: SummaryArgs): seq<Filter> {
    [TextF(Campaign.IdIs, a.campaignId), TextF(DateFrom, a.startDate), TextF(DateTo, a.endDate)]
  }

  function SummaryStmt(a: SummaryArgs): Stmt {
    Stmt(SummaryColumns + " FROM " + Table, " WHERE ", Conds(SummaryFilters(a)), "", [], "", None)
  }

  /** Builds the summary query as the tool does: WHERE only when a filter is given. */
  method BuildSummaryQuery(a: SummaryArgs) returns (query: string, params: seq<Param>)
    ensures query == Text(SummaryStmt(a)) && params == Params(SummaryStmt(a))
  {
    var whereConditions;
    whereConditions, params := SummaryWhere(a);
    query := AddWhere(SummaryColumns + " FROM " + Table, " WHERE ", whereConditions, Conds(SummaryFilters(a)));
    StmtShape(SummaryStmt(a));
    assert params + [] == params;
  }

  /** The condition block: campaign id, start, end. */
  method SummaryWhere(a: SummaryArgs) returns (whereConditions: seq<string>, params: seq<Param>)
    ensures whereConditions == Texts(Conds(SummaryFilters(a))) && params == Args(Conds(SummaryFilters(a)))
  {
    whereConditions, params := [], [];
    ghost var done: seq<Filter> := [];
    whereConditions, params, done := AppendFilter(TextF(Campaign.IdIs, a.campaignId), whereConditions, params, [], done);
    whereConditions, params, done := AppendFilter(TextF(DateFrom, a.startDate), whereConditions, params, [], done);
    whereConditions, params, done := AppendFilter(TextF(DateTo, a.endDate), whereConditions, params, [], done);
    assert done == SummaryFilters(a);
  }

  lemma SummaryWellFormed(a: SummaryArgs)
    ensures WellFormed(SummaryStmt(a))
  {
    SummaryColumnsPlain();
    FromPlain();
    Campaign.WhereTexts();
    var fs := SummaryFilters(a);
    assert forall i | 0 <= i < |fs| :: FilterSound(fs[i]);
    CondsSound(fs);
  }

  /** The summary binds the campaign id, the start, then the end, each only when truthy. */
  lemma SummaryParams(a: SummaryArgs)
    ensures Params(SummaryStmt(a)) == TextArg(a.campaignId) + TextArg(a.startDate) + TextArg(a.endDate)
  {
    var fs := SummaryFilters(a);
    CondsValues(fs);
    Triple(fs[0], fs[1], fs[2]);
    StmtShape(SummaryStmt(a));
  }

  const NoSummary := "No campaigns found for the specified criteria."
  const SummaryFailure := "Error generating summary: "

  /** The summary block, in the order the f-string reads the row. */
  const SummaryFields := [Shown("earliest_campaign"), Shown("latest_campaign"), Number("total_campaigns"),
                          Number("total_emails_sent"), Shown("avg_open_rate"), Shown("avg_click_rate"),
                          Number("total_conversions"), Shown("overall_conversion_rate"),
                          Number("total_unsubscribes"), Shown("unsubscribe_rate")]

  /** The tool: one aggregate row, reported unless there are no campaigns. */
  function GetCampaignSummary(a: SummaryArgs, server: Server): Outcome<NoReport> {
    var q := SummaryStmt(a);
    SummaryOutcome(Execute(server, Text(q), Params(q)))
  }

  /** `not result or result["total_campaigns"] == 0`: no row, an empty row, or a zero count. */
  predicate NoCampaigns(rows: seq<Row>) {
    rows == [] || rows[0] == map[] || ("total_campaigns" in rows[0] && rows[0]["total_campaigns"] == Num(0.0))
  }

  /**
   * A zero count gives the no-data message whatever the other columns
   * hold; a non-empty row without the count raises `KeyError`; otherwise
   * the row is reported when every field prints.
   */
  function SummaryOutcome(main: Fetch): (r: Outcome<NoReport>)
    ensures r.Message? <==> main.Fetched? && NoCampaigns(main.rows)
    ensures r.Message? ==> r.text == NoSummary
    ensures r.OneRow? <==>
      (main.Fetched? && !NoCampaigns(main.rows) && "total_campaigns" in main.rows[0]
       && FieldsFault(main.rows[0], SummaryFields).None?)
    ensures r.OneRow? ==> r.row == main.rows[0]
    ensures main.Fetched? && !NoCampaigns(main.rows) && "total_campaigns" !in main.rows[0] ==>
      r == Failed(SummaryFailure, KeyError("total_campaigns"))
    ensures r.Failed? ==> r.prefix == SummaryFailure && (main == Raised(r.fault) || DataFault(r.fault))
    ensures r.Message? || r.OneRow? || r.Failed?
  {
    match main
    case Raised(f) => Failed(SummaryFailure, f)
    case Fetched(rows) =>
      match FirstRow(rows)
      case None => Message(NoSummary)
      case Some(row) =>
        if row == map[] then Message(NoSummary)
        else if "total_campaigns" !in row then Failed(SummaryFailure, KeyError("total_campaigns"))
        else if row["total_campaigns"] == Num(0.0) then Message(NoSummary)
        else
          match FieldsFault(row, SummaryFields)
          case Some(f) => Failed(SummaryFailure, f)
          case None => OneRow(row)
  }

  /** The statement binds, so the server's answer to the filled statement alone decides. */
  lemma SummaryAnswers(a: SummaryArgs, server: Server)
    ensures WellFormed(SummaryStmt(a))
    ensures GetCampaignSummary(a, server) == SummaryOutcome(Answer2Fetch(server(Filled(SummaryStmt(a)))))
  {
    SummaryWellFormed(a);
    StmtExecutes(server, SummaryStmt(a));
  }

  // ---------------------------------------------------------------------
  // search_campaigns_by_subject
  // ---------------------------------------------------------------------

  const SubjectLike := "subject_line ILIKE " + P

  /** `limit` is typed `Optional[str]` and bound as given; `None` binds SQL NULL. */
  function LimitParam(limit: Option<string>): Param {
    if limit.Some? then PText(limit.value) else PNull
  }

  /** One fixed statement: the keyword condition, the date ordering and the limit. */
  function SubjectStmt(keyword: string, limit: Option<string>): Stmt {
    Stmt(SubjectColumns + " FROM " + Table, " WHERE ", [Cond(SubjectLike, [Like(keyword)])], "", [],
         " ORDER BY date DESC LIMIT ", Some(LimitParam(limit)))
  }

  /** The search binds exactly two values: `%keyword%`, then the limit. */
  lemma SubjectParams(keyword: string, limit: Option<string>)
    ensures Params(SubjectStmt(keyword, limit)) == [Like(keyword), LimitParam(limit)]
  {
    var q := SubjectStmt(keyword, limit);
    assert q.where == [] + [Cond(SubjectLike, [Like(keyword)])];
    StmtShape(q);
  }

  lemma SubjectWellFormed(keyword: string, limit: Option<string>)
    ensures WellFormed(SubjectStmt(keyword, limit))
  {
    SubjectColumnsPlain();
    FromPlain();
    OneSlot("subject_line ILIKE ", "");
    assert SubjectLike == "subject_line ILIKE " + P + "";
    assert Plain(" ORDER BY date DESC LIMIT ");
  }

  const SubjectFailure := "Error searching campaigns: "

  /** The no-match message names the keyword. */
  function NoSubjectMatch(keyword: string): string {
    "No campaigns found with subject containing '" + keyword + "'"
  }

  /** One campaign line, in the order the f-string reads the row. */
  const SubjectFields := [Shown("date"), Shown("subject_line"), Shown("campaign_id"), Number("emails_sent"),
                          Shown("open_rate_pct"), Shown("click_rate_pct"), Shown("conversions"),
                          Shown("conversion_rate_pct"), Shown("unsubscribes"), Shown("source")]

  /** The values the search report is written from; its layout is not modelled. */
  datatype SubjectReport = SubjectReport(found: nat, keyword: string, rows: seq<Row>)

  /** The tool: the matching campaigns as a report, or the message naming the keyword. */
  function SearchCampaignsBySubject(keyword: string, limit: Option<string>, server: Server): Outcome<SubjectReport> {
    var q := SubjectStmt(keyword, limit);
    SubjectOutcome(keyword, Execute(server, Text(q), Params(q)))
  }

  function SubjectOutcome(keyword: string, main: Fetch): (r: Outcome<SubjectReport>)
    ensures r.Message? <==> main == Fetched([])
    ensures r.Message? ==> r.text == NoSubjectMatch(keyword)
    ensures r.Report? <==>
      main.Fetched? && main.rows != [] && forall i | 0 <= i < |main.rows| :: FieldsFault(main.rows[i], SubjectFields).None?
    ensures r.Report? ==> r.report == SubjectReport(|main.rows|, keyword, main.rows)
    ensures r.Failed? ==> r.prefix == SubjectFailure && (main == Raised(r.fault) || DataFault(r.fault))
    ensures r.Message? || r.Report? || r.Failed?
  {
    match main
    case Raised(f) => Failed(SubjectFailure, f)
    case Fetched(rows) =>
      if rows == [] then Message(NoSubjectMatch(keyword))
      else
        RowsFaultMeaning(rows, SubjectFields);
        match RowsFault(rows, SubjectFields)
        case Some(f) => Failed(SubjectFailure, f)
        case None => Report(SubjectReport(|rows|, keyword, rows))
  }

  /** The statement binds, so the server's answer to the filled statement alone decides. */
  lemma SubjectAnswers(keyword: string, limit: Option<string>, server: Server)
    ensures WellFormed(SubjectStmt(keyword, limit))
    ensures SearchCampaignsBySubject(keyword, limit, server)
      == SubjectOutcome(keyword, Answer2Fetch(server(Filled(SubjectStmt(keyword, limit)))))
  {
    SubjectWellFormed(keyword, limit);
    StmtExecutes(server, SubjectStmt(keyword, limit));
  }

  // ---------------------------------------------------------------------
  // Fixed SQL text
  // ---------------------------------------------------------------------

  /** The SELECT list of the first performance query (tools/email_tools.py:82-89). */
  const LegacyColumns := Cat(LegacyColumns1) + Cat(LegacyColumns2) + Cat(LegacyColumns3)

  const LegacyColumns1 := [
    "SELECT", " date,", " campaign_id,", " subject_line,", " emails_sent,",
    " ROUND(open_rate", " *", " 100,", " 2)", " as", " open_rate_pct,"]

  const LegacyColumns2 := [
    " ROUND(click_through_rate", " *", " 100,", " 2)", " as", " click_rate_pct,",
    " unsubscribes,", " conversions,", " source,", " ROUND("]

  const LegacyColumns3 := [
    " CAST(conversions", " *", " 100.0", " /", " NULLIF(emails_sent,", " 0)", " AS",
    " NUMERIC),", " 2", " )", " as", " conversion_rate_pct"]

  lemma LegacyColumnsPlain()
    ensures Plain(LegacyColumns)
  {
    LegacyColumns1Plain();
    LegacyColumns2Plain();
    LegacyColumns3Plain();
  }

  lemma LegacyColumns1Plain()
    ensures Plain(Cat(LegacyColumns1))
  {
    CatPlain(LegacyColumns1);
  }

  lemma LegacyColumns2Plain()
    ensures Plain(Cat(LegacyColumns2))
  {
    CatPlain(LegacyColumns2);
  }

  lemma LegacyColumns3Plain()
    ensures Plain(Cat(LegacyColumns3))
  {
    CatPlain(LegacyColumns3);
  }

  /** The SELECT list of the ranking query, up to the ranked expression (tools/email_tools.py:178-189). */
  const TopColumns := Cat(TopColumns1) + Cat(TopColumns2) + Cat(TopColumns3) + Cat(TopColumns4)

  const TopColumns1 := [
    "SELECT", " date,", " campaign_id,", " subject_line,", " emails_sent,",
    " ROUND(open_rate", " *", " 100,", " 2)", " as", " open_rate_pct,"]

  const TopColumns2 := [
    " ROUND(click_through_rate", " *", " 100,", " 2)", " as", " click_rate_pct,",
    " conversions,", " unsubscribes,", " source,", " ROUND("]

  const TopColumns3 := [
    " CAST(conversions", " *", " 100.0", " /", " NULLIF(emails_sent,", " 0)", " AS",
    " NUMERIC),", " 2", " )", " AS", " conversion_rate_pct,", " ROUND("]

  const TopColumns4 := [
    " CAST("]

  lemma TopColumnsPlain()
    ensures Plain(TopColumns)
  {
    TopColumns1Plain();
    TopColumns2Plain();
    TopColumns3Plain();
    TopColumns4Plain();
  }

  lemma TopColumns1Plain()
    ensures Plain(Cat(TopColumns1))
  {
    CatPlain(TopColumns1);
  }

  lemma TopColumns2Plain()
    ensures Plain(Cat(TopColumns2))
  {
    CatPlain(TopColumns2);
  }

  lemma TopColumns3Plain()
    ensures Plain(Cat(TopColumns3))
  {
    CatPlain(TopColumns3);
  }

  lemma TopColumns4Plain()
    ensures Plain(Cat(TopColumns4))
  {
    CatPlain(TopColumns4);
  }

  /** The SELECT list of the summary query (tools/email_tools.py:301-317). */
  const SummaryColumns := Cat(SummaryColumns1) + Cat(SummaryColumns2) + Cat(SummaryColumns3) + Cat(SummaryColumns4) + Cat(SummaryColumns5) + Cat(SummaryColumns6)

  const SummaryColumns1 := [
    "SELECT", " COUNT(*)", " as", " total_campaigns,", " SUM(emails_sent)", " as",
    " total_emails_sent,", " ROUND(AVG(open_rate)", " *"]

  const SummaryColumns2 := [
    " 100,", " 2)", " as", " avg_open_rate,", " ROUND(AVG(click_through_rate)", " *",
    " 100,", " 2)", " as", " avg_click_rate,"]

  const SummaryColumns3 := [
    " SUM(conversions)", " as", " total_conversions,", " SUM(unsubscribes)", " as",
    " total_unsubscribes,", " ROUND("]

  const SummaryColumns4 := [
    " CAST(SUM(conversions)", " *", " 100.0", " /", " NULLIF(SUM(emails_sent),", " 0)",
    " AS", " NUMERIC),", " 2", " )", " as"]

  const SummaryColumns5 := [
    " overall_conversion_rate,", " ROUND(", " CAST(SUM(unsubscribes)", " *", " 100.0", " /",
    " NULLIF(SUM(emails_sent),", " 0)", " AS"]

  const SummaryColumns6 := [
    " NUMERIC),", " 2", " )", " as", " unsubscribe_rate,", " MIN(date)", " as",
    " earliest_campaign,", " MAX(date)", " as", " latest_campaign"]

  lemma SummaryColumnsPlain()
    ensures Plain(SummaryColumns)
  {
    SummaryColumns1Plain();
    SummaryColumns2Plain();
    SummaryColumns3Plain();
    SummaryColumns4Plain();
    SummaryColumns5Plain();
    SummaryColumns6Plain();
  }

  lemma SummaryColumns1Plain()
    ensures Plain(Cat(SummaryColumns1))
  {
    CatPlain(SummaryColumns1);
  }

  lemma SummaryColumns2Plain()
    ensures Plain(Cat(SummaryColumns2))
  {
    CatPlain(SummaryColumns2);
  }

  lemma SummaryColumns3Plain()
    ensures Plain(Cat(SummaryColumns3))
  {
    CatPlain(SummaryColumns3);
  }

  lemma SummaryColumns4Plain()
    ensures Plain(Cat(SummaryColumns4))
  {
    CatPlain(SummaryColumns4);
  }

  lemma SummaryColumns5Plain()
    ensures Plain(Cat(SummaryColumns5))
  {
    CatPlain(SummaryColumns5);
  }

  lemma SummaryColumns6Plain()
    ensures Plain(Cat(SummaryColumns6))
  {
    CatPlain(SummaryColumns6);
  }

  /** The SELECT list of the subject search (tools/email_tools.py:434-441). */
  const SubjectColumns := Cat(SubjectColumns1) + Cat(SubjectColumns2) + Cat(SubjectColumns3)

  const SubjectColumns1 := [
    "SELECT", " date,", " campaign_id,", " subject_line,", " emails_sent,",
    " ROUND(open_rate", " *", " 100,", " 2)", " as", " open_rate_pct,"]

  const SubjectColumns2 := [
    " ROUND(click_through_rate", " *", " 100,", " 2)", " as", " click_rate_pct,",
    " conversions,", " unsubscribes,", " source,", " ROUND("]

  const SubjectColumns3 := [
    " CAST(conversions", " *", " 100.0", " /", " NULLIF(emails_sent,", " 0)", " AS",
    " NUMERIC),", " 2", " )", " as", " conversion_rate_pct"]

  lemma SubjectColumnsPlain()
    ensures Plain(SubjectColumns)
  {
    SubjectColumns1Plain();
    SubjectColumns2Plain();
    SubjectColumns3Plain();
  }

  lemma SubjectColumns1Plain()
    ensures Plain(Cat(SubjectColumns1))
  {
    CatPlain(SubjectColumns1);
  }

  lemma SubjectColumns2Plain()
    ensures Plain(Cat(SubjectColumns2))
  {
    CatPlain(SubjectColumns2);
  }

  lemma SubjectColumns3Plain()
    ensures Plain(Cat(SubjectColumns3))
  {
    CatPlain(SubjectColumns3);
  }

  /** The conversion-rate ordering (tools/email_tools.py:214-216). */
  const ConversionOrder := Cat(ConversionOrder1)

  const ConversionOrder1 := [
    "ORDER", " BY", " (conversions", " *", " 100.0", " /", " NULLIF(emails_sent,", " 0))",
    " DESC", " NULLS", " LAST,", " conversions", " DESC"]

  lemma ConversionOrderPlain()
    ensures Plain(ConversionOrder)
  {
    ConversionOrder1Plain();
  }

  lemma ConversionOrder1Plain()
    ensures Plain(Cat(ConversionOrder1))
  {
    CatPlain(ConversionOrder1);
  }

  /** The open-rate ordering (tools/email_tools.py:221-223). */
  const OpenOrder := Cat(OpenOrder1)

  const OpenOrder1 := [
    "ORDER", " BY", " open_rate", " DESC", " NULLS", " LAST,", " emails_sent", " DESC"]

  lemma OpenOrderPlain()
    ensures Plain(OpenOrder)
  {
    OpenOrder1Plain();
  }

  lemma OpenOrder1Plain()
    ensures Plain(Cat(OpenOrder1))
  {
    CatPlain(OpenOrder1);
  }

  /** The click-rate ordering (tools/email_tools.py:228-230). */
  const ClickOrder := Cat(ClickOrder1)

  const ClickOrder1 := [
    "ORDER", " BY", " click_through_rate", " DESC", " NULLS", " LAST,", " emails_sent",
    " DESC"]

  lemma ClickOrderPlain()
    ensures Plain(ClickOrder)
  {
    ClickOrder1Plain();
  }

  lemma ClickOrder1Plain()
    ensures Plain(Cat(ClickOrder1))
  {
    CatPlain(ClickOrder1);
  }

}
