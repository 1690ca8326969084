/**
 * The customer purchase behaviour tool
 * (strands_tools/consolidated_sales_tool.py) over the
 * `consolidated_profit` table: one WHERE block, one HAVING block, and one
 * of five query shapes chosen by `analysis_type`.
 */
module Sales {
  import opened Sql
  import opened Filters
  import opened Shape

  const Table := "consolidated_profit"

  const CustomerIs := "\"Customer ID\" = " + P
  const CategoryIs := "UPPER(\"Category\") = UPPER(" + P + ")"
  const MerchantIs := "UPPER(\"Merchant_Name\") = UPPER(" + P + ")"
  const GrossAtLeast := "SUM(\"Gross Profit\") >= " + P
  const NetAtLeast := "SUM(\"Net Profit\") >= " + P
  const CountAtLeast := "COUNT(*) >= " + P

  lemma WhereTexts()
    ensures OneHole(CustomerIs) && OneHole(CategoryIs) && OneHole(MerchantIs)
  {
    OneSlot("\"Customer ID\" = ", "");
    assert CustomerIs == "\"Customer ID\" = " + P + "";
    OneSlot("UPPER(\"Category\") = UPPER(", ")");
    OneSlot("UPPER(\"Merchant_Name\") = UPPER(", ")");
  }

  lemma HavingTexts()
    ensures OneHole(GrossAtLeast) && OneHole(NetAtLeast) && OneHole(CountAtLeast)
  {
    OneSlot("SUM(\"Gross Profit\") >= ", "");
    assert GrossAtLeast == "SUM(\"Gross Profit\") >= " + P + "";
    OneSlot("SUM(\"Net Profit\") >= ", "");
    assert NetAtLeast == "SUM(\"Net Profit\") >= " + P + "";
    OneSlot("COUNT(*) >= ", "");
    assert CountAtLeast == "COUNT(*) >= " + P + "";
  }

  /**
   * The tool's arguments; `None` is an argument passed as None; defaults
   * are filled by the caller. At the call site `analysis_type` defaults to `"customer_profile"`,
   * `min_transactions` to 1, `sort_by` to `"total_gross_profit"` and
   * `limit` to 20. The `Literal` types are not checked at run time, so
   * both strings are free.
   */
  datatype SalesArgs = SalesArgs(
    customerId: Option<string>, category: Option<string>, merchantName: Option<string>,
    analysisType: string, minGrossProfit: Option<real>, minNetProfit: Option<real>,
    minTransactions: Option<int>, sortBy: string, limit: Option<int>)

  /** The `if`/`elif` chain over `analysis_type`: anything unmatched takes the profitability branch. */
  datatype Analysis = CustomerProfile | CategoryPreferences | MerchantRelationships | PaymentBehavior
                    | LifetimeValue | Profitability

  function AnalysisOf(t: string): (k: Analysis)
    ensures k == CustomerProfile <==> t == "customer_profile"
    ensures k == CategoryPreferences <==> t == "category_preferences"
    ensures k == MerchantRelationships <==> t == "merchant_relationships"
    ensures k == PaymentBehavior <==> t == "payment_behavior"
    ensures k == LifetimeValue <==> t == "lifetime_value"
  {
    if t == "customer_profile" then CustomerProfile
    else if t == "category_preferences" then CategoryPreferences
    else if t == "merchant_relationships" then MerchantRelationships
    else if t == "payment_behavior" then PaymentBehavior
    else if t == "lifetime_value" then LifetimeValue
    else Profitability
  }

  /** Customer id, category, merchant: each one condition and one value when truthy. */
  function WhereFilters(a: SalesArgs): seq<Filter> {
    [TextF(CustomerIs, a.customerId), TextF(CategoryIs, a.category), TextF(MerchantIs, a.merchantName)]
  }

  /** Gross profit, net profit, transaction count: each one condition and one value when truthy. */
  function HavingFilters(a: SalesArgs): seq<Filter> {
    [RealF(GrossAtLeast, a.minGrossProfit), RealF(NetAtLeast, a.minNetProfit), IntF(CountAtLeast, a.minTransactions)]
  }

  /** The SELECT list and FROM of each shape. */
  function Head(k: Analysis): string {
    match k
    case CustomerProfile => ProfileColumns + " FROM " + Table
    case CategoryPreferences => CategoryColumns + " FROM " + Table
    case MerchantRelationships => MerchantColumns + " FROM " + Table
    case PaymentBehavior => PaymentColumns + " FROM " + Table
    case LifetimeValue => LifetimeColumns + " FROM " + Table
    case Profitability => ProfitabilityColumns + " FROM " + Table
  }

  const ByCustomer := " GROUP BY \"Customer ID\""
  const ByCategory := " GROUP BY \"Customer ID\", \"Category\""
  const ByMerchant := " GROUP BY \"Customer ID\", \"Merchant_Name\""

  /** The grouping of each shape: per customer, or per customer and category or merchant. */
  function GroupBy(k: Analysis): string {
    match k
    case CategoryPreferences => ByCategory
    case MerchantRelationships => ByMerchant
    case _ => ByCustomer
  }

  const PerCustomer := " ORDER BY \"Customer ID\", "
  const CategoryOrder := PerCustomer + "category_gross_profit DESC"
  const MerchantOrder := PerCustomer + "merchant_gross_profit DESC"

  /** The ordering: `sort_by` is written into the text except in the category and merchant shapes. */
  function OrderBy(k: Analysis, sortBy: string): string {
    match k
    case CategoryPreferences => CategoryOrder
    case MerchantRelationships => MerchantOrder
    case _ => " ORDER BY " + sortBy + " DESC"
  }

  /** The statement: WHERE and HAVING each present only with conditions, then `LIMIT %s`. */
  function SalesStmt(a: SalesArgs): Stmt {
    var k := AnalysisOf(a.analysisType);
    Stmt(Head(k), " WHERE ", Conds(WhereFilters(a)), GroupBy(k), Conds(HavingFilters(a)),
         OrderBy(k, a.sortBy) + " LIMIT ", Some(IntParam(a.limit)))
  }

  /** The WHERE block. */
  method SalesWhere(a: SalesArgs) returns (whereConditions: seq<string>, params: seq<Param>)
    ensures whereConditions == Texts(Conds(WhereFilters(a))) && params == Args(Conds(WhereFilters(a)))
  {
    whereConditions, params := [], [];
    ghost var done: seq<Filter> := [];
    whereConditions, params, done := AppendFilter(TextF(CustomerIs, a.customerId), whereConditions, params, [], done);
    whereConditions, params, done := AppendFilter(TextF(CategoryIs, a.category), whereConditions, params, [], done);
    whereConditions, params, done := AppendFilter(TextF(MerchantIs, a.merchantName), whereConditions, params, [], done);
    assert done == WhereFilters(a);
  }

  /** The HAVING block, its values appended after the WHERE values. */
  method SalesHaving(a: SalesArgs, params: seq<Param>) returns (havingConditions: seq<string>, params': seq<Param>)
    ensures havingConditions == Texts(Conds(HavingFilters(a)))
    ensures params' == params + Args(Conds(HavingFilters(a)))
  {
    havingConditions, params' := [], params;
    ghost var done: seq<Filter> := [];
    assert params' == params + Args(Conds(done));
    havingConditions, params', done :=
      AppendFilter(RealF(GrossAtLeast, a.minGrossProfit), havingConditions, params', params, done);
    havingConditions, params', done :=
      AppendFilter(RealF(NetAtLeast, a.minNetProfit), havingConditions, params', params, done);
    havingConditions, params', done :=
      AppendFilter(IntF(CountAtLeast, a.minTransactions), havingConditions, params', params, done);
    assert done == HavingFilters(a);
  }

  /**
   * Builds the query as the tool does: both clauses first, then the
   * shape's text chosen by `analysis_type`, then the limit appended last.
   */
  method BuildSalesQuery(a: SalesArgs) returns (query: string, params: seq<Param>)
    ensures query == Text(SalesStmt(a)) && params == Params(SalesStmt(a))
  {
    var whereConditions, havingConditions;
    whereConditions, params := SalesWhere(a);
    var whereClause := AddWhere("", " WHERE ", whereConditions, Conds(WhereFilters(a)));
    havingConditions, params := SalesHaving(a, params);
    var havingClause := AddWhere("", " HAVING ", havingConditions, Conds(HavingFilters(a)));
    var t, sortBy := a.analysisType, a.sortBy;
    SalesText(a, whereClause, havingClause);
    if t == "customer_profile" {
      query := Head(CustomerProfile) + whereClause + ByCustomer + havingClause + (" ORDER BY " + sortBy + " DESC" + " LIMIT ") + P;
    } else if t == "category_preferences" {
      query := Head(CategoryPreferences) + whereClause + ByCategory + havingClause + (CategoryOrder + " LIMIT ") + P;
    } else if t == "merchant_relationships" {
      query := Head(MerchantRelationships) + whereClause + ByMerchant + havingClause + (MerchantOrder + " LIMIT ") + P;
    } else if t == "payment_behavior" {
      query := Head(PaymentBehavior) + whereClause + ByCustomer + havingClause + (" ORDER BY " + sortBy + " DESC" + " LIMIT ") + P;
    } else if t == "lifetime_value" {
      query := Head(LifetimeValue) + whereClause + ByCustomer + havingClause + (" ORDER BY " + sortBy + " DESC" + " LIMIT ") + P;
    } else {
      query := Head(Profitability) + whereClause + ByCustomer + havingClause + (" ORDER BY " + sortBy + " DESC" + " LIMIT ") + P;
    }
    params := params + [IntParam(a.limit)];
  }

  /** The statement's text with its two sections named. */
  lemma SalesText(a: SalesArgs, w: string, h: string)
    requires w == "" + Section(" WHERE ", Conds(WhereFilters(a)))
    requires h == "" + Section(" HAVING ", Conds(HavingFilters(a)))
    ensures var k := AnalysisOf(a.analysisType);
      Text(SalesStmt(a)) == Head(k) + w + GroupBy(k) + h + (OrderBy(k, a.sortBy) + " LIMIT ") + P
  {
    assert "" + Section(" WHERE ", Conds(WhereFilters(a))) == Section(" WHERE ", Conds(WhereFilters(a)));
    assert "" + Section(" HAVING ", Conds(HavingFilters(a))) == Section(" HAVING ", Conds(HavingFilters(a)));
  }

  /** The heads of all six shapes are fixed text. */
  lemma HeadPlain(k: Analysis)
    ensures Plain(Head(k))
  {
    assert Plain(" FROM " + Table);
    match k
    case CustomerProfile => ProfileColumnsPlain();
    case CategoryPreferences => CategoryColumnsPlain();
    case MerchantRelationships => MerchantColumnsPlain();
    case PaymentBehavior => PaymentColumnsPlain();
    case LifetimeValue => LifetimeColumnsPlain();
    case Profitability => ProfitabilityColumnsPlain();
  }

  /** The ordering of every shape, with a `sort_by` free of `%`, is fixed text. */
  lemma OrderPlain(k: Analysis, sortBy: string)
    requires Plain(sortBy)
    ensures Plain(OrderBy(k, sortBy) + " LIMIT ")
  {
    match k
    case CategoryPreferences =>
      PlainCat(PerCustomer, "category_gross_profit DESC");
      PlainCat(CategoryOrder, " LIMIT ");
    case MerchantRelationships =>
      PlainCat(PerCustomer, "merchant_gross_profit DESC");
      PlainCat(MerchantOrder, " LIMIT ");
    case _ =>
      PlainCat(" ORDER BY ", sortBy);
      PlainCat(" ORDER BY " + sortBy, " DESC");
      PlainCat(" ORDER BY " + sortBy + " DESC", " LIMIT ");
  }

  lemma GroupPlain(k: Analysis)
    ensures Plain(GroupBy(k))
  {
  }

  /** With a `sort_by` free of `%`, the statement is well formed. */
  lemma SalesWellFormed(a: SalesArgs)
    requires Plain(a.sortBy)
    ensures WellFormed(SalesStmt(a))
  {
    var k := AnalysisOf(a.analysisType);
    HeadPlain(k);
    GroupPlain(k);
    OrderPlain(k, a.sortBy);
    SalesCondsSound(a);
  }

  lemma SalesCondsSound(a: SalesArgs)
    ensures AllSound(Conds(WhereFilters(a))) && AllSound(Conds(HavingFilters(a)))
  {
    WhereTexts();
    HavingTexts();
    var ws, hs := WhereFilters(a), HavingFilters(a);
    assert forall i | 0 <= i < |ws| :: FilterSound(ws[i]);
    assert forall i | 0 <= i < |hs| :: FilterSound(hs[i]);
    CondsSound(ws);
    CondsSound(hs);
  }

  /** WHERE values (customer, category, merchant), then HAVING values (gross, net, count), then the limit. */
  lemma SalesParams(a: SalesArgs)
    ensures Params(SalesStmt(a))
      == (TextArg(a.customerId) + TextArg(a.category) + TextArg(a.merchantName))
         + (RealArg(a.minGrossProfit) + RealArg(a.minNetProfit) + IntArg(a.minTransactions))
         + [IntParam(a.limit)]
  {
    WhereValues(a);
    HavingValues(a);
    var q := SalesStmt(a);
    assert Params(q) == Args(Conds(WhereFilters(a))) + Args(Conds(HavingFilters(a))) + [IntParam(a.limit)];
  }

  lemma WhereValues(a: SalesArgs)
    ensures Args(Conds(WhereFilters(a))) == TextArg(a.customerId) + TextArg(a.category) + TextArg(a.merchantName)
  {
    var ws := WhereFilters(a);
    CondsValues(ws);
    Triple(ws[0], ws[1], ws[2]);
  }

  lemma HavingValues(a: SalesArgs)
    ensures Args(Conds(HavingFilters(a))) == RealArg(a.minGrossProfit) + RealArg(a.minNetProfit) + IntArg(a.minTransactions)
  {
    var hs := HavingFilters(a);
    CondsValues(hs);
    Triple(hs[0], hs[1], hs[2]);
  }

  /**
   * The transaction-count condition is there exactly when
   * `min_transactions` is truthy; with the default 1 it is the last HAVING
   * condition and binds 1.
   */
  lemma CountCondition(a: SalesArgs)
    ensures (exists i | 0 <= i < |Conds(HavingFilters(a))| :: Conds(HavingFilters(a))[i].text == CountAtLeast)
      <==> GivenInt(a.minTransactions)
    ensures a.minTransactions == Some(1) ==>
      Conds(HavingFilters(a))[|Conds(HavingFilters(a))| - 1] == Cond(CountAtLeast, [PInt(1)])
  {
    var hs := HavingFilters(a);
    Triple(hs[0], hs[1], hs[2]);
    var cs := Conds(hs);
    if GivenInt(a.minTransactions) {
      assert cs[|cs| - 1].text == CountAtLeast;
    } else {
      forall i | 0 <= i < |cs|
        ensures cs[i].text != CountAtLeast
      {
        assert cs[i].text == GrossAtLeast || cs[i].text == NetAtLeast;
        assert cs[i].text[0] == 'S' && CountAtLeast[0] == 'C';
      }
    }
  }

  /** In the category and merchant shapes `sort_by` is not read. */
  lemma SortIgnored(a: SalesArgs, sortBy: string)
    requires AnalysisOf(a.analysisType) in {CategoryPreferences, MerchantRelationships}
    ensures SalesStmt(a.(sortBy := sortBy)) == SalesStmt(a)
  {
    assert WhereFilters(a.(sortBy := sortBy)) == WhereFilters(a);
    assert HavingFilters(a.(sortBy := sortBy)) == HavingFilters(a);
  }

  /** In the other four shapes the ordering is `sort_by` itself, descending. */
  lemma SortUsed(a: SalesArgs)
    requires AnalysisOf(a.analysisType) !in {CategoryPreferences, MerchantRelationships}
    ensures SalesStmt(a).tail == " ORDER BY " + a.sortBy + " DESC" + " LIMIT "
  {
  }

  const NoCustomerData := "No customer data found matching the specified criteria."
  const SalesFailure := "Error analyzing customer behavior: "

  /** One customer-profile block, in the order the f-string reads the row. */
  const ProfileFields := [Shown("Customer ID"), Shown("transaction_count"), Number("total_gross_profit"),
                          Number("total_net_profit"), Number("total_payments"), Number("avg_gross_profit"),
                          Number("avg_net_profit"), Number("avg_payment"), Shown("profit_margin_pct"),
                          Shown("categories_purchased"), Shown("merchants_used"), Shown("preferred_categories"),
                          Number("min_transaction_gross"), Number("max_transaction_gross")]

  /** One payment-behaviour block, in the order the f-string reads the row. */
  const PaymentFields := [Shown("Customer ID"), Shown("total_transactions"), Number("total_payments"),
                          Number("avg_payment_amount"), Shown("zero_payment_count"), Shown("paid_transaction_count"),
                          Shown("zero_payment_percentage"), Shown("payment_to_profit_ratio")]

  /**
   * The generic block reads `Customer ID`, then prints every column with a
   * format its value always accepts.
   */
  function LineFields(k: Analysis): seq<Field> {
    match k
    case CustomerProfile => ProfileFields
    case PaymentBehavior => PaymentFields
    case _ => [Shown("Customer ID")]
  }

  /** The values the analysis report is written from; its layout is not modelled. */
  datatype SalesReport = SalesReport(analysisType: string, customers: nat, rows: seq<Row>)

  /** The tool: build, execute, then one block per row in the shape's layout. */
  function AnalyzeCustomerPurchaseBehavior(a: SalesArgs, server: Server): Outcome<SalesReport> {
    var q := SalesStmt(a);
    SalesOutcome(a.analysisType, Execute(server, Text(q), Params(q)))
  }

  /** No rows give the fixed message; otherwise every block is written or the first failing one raises. */
  function SalesOutcome(analysisType: string, main: Fetch): (r: Outcome<SalesReport>)
    ensures r.Message? <==> main == Fetched([])
    ensures r.Message? ==> r.text == NoCustomerData
    ensures r.Report? <==>
      main.Fetched? && main.rows != []
      && forall i | 0 <= i < |main.rows| :: FieldsFault(main.rows[i], LineFields(AnalysisOf(analysisType))).None?
    ensures r.Report? ==> r.report == SalesReport(analysisType, |main.rows|, main.rows)
    ensures r.Failed? ==> r.prefix == SalesFailure && (main == Raised(r.fault) || DataFault(r.fault))
    ensures r.Message? || r.Report? || r.Failed?
  {
    var fields := LineFields(AnalysisOf(analysisType));
    match main
    case Raised(f) => Failed(SalesFailure, f)
    case Fetched(rows) =>
      if rows == [] then Message(NoCustomerData)
      else
        RowsFaultMeaning(rows, fields);
        match RowsFault(rows, fields)
        case Some(f) => Failed(SalesFailure, f)
        case None => Report(SalesReport(analysisType, |rows|, rows))
  }

  /** In the generic shapes only a row without `Customer ID` can stop the report. */
  lemma GenericNeverFormatFails(analysisType: string, rows: seq<Row>)
    requires AnalysisOf(analysisType) !in {CustomerProfile, PaymentBehavior}
    requires rows != [] && forall i | 0 <= i < |rows| :: "Customer ID" in rows[i]
    ensures SalesOutcome(analysisType, Fetched(rows)) == Report(SalesReport(analysisType, |rows|, rows))
  {
    var fields := LineFields(AnalysisOf(analysisType));
    forall i | 0 <= i < |rows|
      ensures FieldsFault(rows[i], fields).None?
    {
      assert FieldFault(rows[i], fields[0]).None?;
    }
  }

  /** With a `sort_by` free of `%` the statement binds, and the server's answer alone decides. */
  lemma SalesAnswers(a: SalesArgs, server: Server)
    requires Plain(a.sortBy)
    ensures WellFormed(SalesStmt(a))
    ensures AnalyzeCustomerPurchaseBehavior(a, server) == SalesOutcome(a.analysisType, Answer2Fetch(server(Filled(SalesStmt(a)))))
  {
    SalesWellFormed(a);
    StmtExecutes(server, SalesStmt(a));
  }

  // ---------------------------------------------------------------------
  // Fixed SQL text
  // ---------------------------------------------------------------------

  /** The SELECT list of the customer profile (strands_tools/consolidated_sales_tool.py:138-153). */
  const ProfileColumns := Cat(ProfileColumns1) + Cat(ProfileColumns2) + Cat(ProfileColumns3) + Cat(ProfileColumns4) + Cat(ProfileColumns5) + Cat(ProfileColumns6) + Cat(ProfileColumns7) + Cat(ProfileColumns8)

  const ProfileColumns1 := [
    "SELECT", " \"Customer", " ID\",", " COUNT(*)", " as", " transaction_count,",
    " SUM(\"Gross", " Profit\")", " as", " total_gross_profit,"]

  const ProfileColumns2 := [
    " SUM(\"Net", " Profit\")", " as", " total_net_profit,", " SUM(\"Customer",
    " Payment\")", " as", " total_payments,", " AVG(\"Gross"]

  const ProfileColumns3 := [
    " Profit\")", " as", " avg_gross_profit,", " AVG(\"Net", " Profit\")", " as",
    " avg_net_profit,", " AVG(\"Customer", " Payment\")", " as"]

  const ProfileColumns4 := [
    " avg_payment,", " ROUND((SUM(\"Net", " Profit\")", " /", " NULLIF(SUM(\"Gross",
    " Profit\"),", " 0))", " *", " 100,", " 2)", " as"]

  const ProfileColumns5 := [
    " profit_margin_pct,", " COUNT(DISTINCT", " \"Category\")", " as",
    " categories_purchased,", " COUNT(DISTINCT"]

  const ProfileColumns6 := [
    " \"Merchant_Name\")", " as", " merchants_used,", " STRING_AGG(DISTINCT",
    " \"Category\",", " ',", " ')", " as", " preferred_categories,"]

  const ProfileColumns7 := [
    " STRING_AGG(DISTINCT", " \"Merchant_Name\",", " ',", " ')", " as", " used_merchants,",
    " MIN(\"Gross", " Profit\")", " as"]

  const ProfileColumns8 := [
    " min_transaction_gross,", " MAX(\"Gross", " Profit\")", " as", " max_transaction_gross"]

  lemma ProfileColumnsPlain()
    ensures Plain(ProfileColumns)
  {
    ProfileColumns1Plain();
    ProfileColumns2Plain();
    ProfileColumns3Plain();
    ProfileColumns4Plain();
    ProfileColumns5Plain();
    ProfileColumns6Plain();
    ProfileColumns7Plain();
    ProfileColumns8Plain();
  }

  lemma ProfileColumns1Plain()
    ensures Plain(Cat(ProfileColumns1))
  {
    CatPlain(ProfileColumns1);
  }

  lemma ProfileColumns2Plain()
    ensures Plain(Cat(ProfileColumns2))
  {
    CatPlain(ProfileColumns2);
  }

  lemma ProfileColumns3Plain()
    ensures Plain(Cat(ProfileColumns3))
  {
    CatPlain(ProfileColumns3);
  }

  lemma ProfileColumns4Plain()
    ensures Plain(Cat(ProfileColumns4))
  {
    CatPlain(ProfileColumns4);
  }

  lemma ProfileColumns5Plain()
    ensures Plain(Cat(ProfileColumns5))
  {
    CatPlain(ProfileColumns5);
  }

  lemma ProfileColumns6Plain()
    ensures Plain(Cat(ProfileColumns6))
  {
    CatPlain(ProfileColumns6);
  }

  lemma ProfileColumns7Plain()
    ensures Plain(Cat(ProfileColumns7))
  {
    CatPlain(ProfileColumns7);
  }

  lemma ProfileColumns8Plain()
    ensures Plain(Cat(ProfileColumns8))
  {
    CatPlain(ProfileColumns8);
  }

  /** The SELECT list of the category preferences (strands_tools/consolidated_sales_tool.py:164-172). */
  const CategoryColumns := Cat(CategoryColumns1) + Cat(CategoryColumns2) + Cat(CategoryColumns3) + Cat(CategoryColumns4)

  const CategoryColumns1 := [
    "SELECT", " \"Customer", " ID\",", " \"Category\",", " COUNT(*)", " as",
    " transactions_in_category,", " SUM(\"Gross", " Profit\")", " as"]

  const CategoryColumns2 := [
    " category_gross_profit,", " SUM(\"Net", " Profit\")", " as", " category_net_profit,",
    " SUM(\"Customer", " Payment\")", " as"]

  const CategoryColumns3 := [
    " category_payments,", " AVG(\"Gross", " Profit\")", " as",
    " avg_category_gross_profit,", " ROUND((COUNT(*)", " *", " 100.0", " /"]

  const CategoryColumns4 := [
    " SUM(COUNT(*))", " OVER", " (PARTITION", " BY", " \"Customer", " ID\")),", " 2)", " as",
    " category_percentage"]

  lemma CategoryColumnsPlain()
    ensures Plain(CategoryColumns)
  {
    CategoryColumns1Plain();
    CategoryColumns2Plain();
    CategoryColumns3Plain();
    CategoryColumns4Plain();
  }

  lemma CategoryColumns1Plain()
    ensures Plain(Cat(CategoryColumns1))
  {
    CatPlain(CategoryColumns1);
  }

  lemma CategoryColumns2Plain()
    ensures Plain(Cat(CategoryColumns2))
  {
    CatPlain(CategoryColumns2);
  }

  lemma CategoryColumns3Plain()
    ensures Plain(Cat(CategoryColumns3))
  {
    CatPlain(CategoryColumns3);
  }

  lemma CategoryColumns4Plain()
    ensures Plain(Cat(CategoryColumns4))
  {
    CatPlain(CategoryColumns4);
  }

  /** The SELECT list of the merchant relationships (strands_tools/consolidated_sales_tool.py:183-191). */
  const MerchantColumns := Cat(MerchantColumns1) + Cat(MerchantColumns2) + Cat(MerchantColumns3) + Cat(MerchantColumns4)

  const MerchantColumns1 := [
    "SELECT", " \"Customer", " ID\",", " \"Merchant_Name\",", " COUNT(*)", " as",
    " transactions_with_merchant,", " SUM(\"Gross", " Profit\")"]

  const MerchantColumns2 := [
    " as", " merchant_gross_profit,", " SUM(\"Net", " Profit\")", " as",
    " merchant_net_profit,", " SUM(\"Customer", " Payment\")", " as"]

  const MerchantColumns3 := [
    " merchant_payments,", " AVG(\"Gross", " Profit\")", " as",
    " avg_merchant_gross_profit,", " ROUND((COUNT(*)", " *", " 100.0", " /"]

  const MerchantColumns4 := [
    " SUM(COUNT(*))", " OVER", " (PARTITION", " BY", " \"Customer", " ID\")),", " 2)", " as",
    " merchant_percentage"]

  lemma MerchantColumnsPlain()
    ensures Plain(MerchantColumns)
  {
    MerchantColumns1Plain();
    MerchantColumns2Plain();
    MerchantColumns3Plain();
    MerchantColumns4Plain();
  }

  lemma MerchantColumns1Plain()
    ensures Plain(Cat(MerchantColumns1))
  {
    CatPlain(MerchantColumns1);
  }

  lemma MerchantColumns2Plain()
    ensures Plain(Cat(MerchantColumns2))
  {
    CatPlain(MerchantColumns2);
  }

  lemma MerchantColumns3Plain()
    ensures Plain(Cat(MerchantColumns3))
  {
    CatPlain(MerchantColumns3);
  }

  lemma MerchantColumns4Plain()
    ensures Plain(Cat(MerchantColumns4))
  {
    CatPlain(MerchantColumns4);
  }

  /** The SELECT list of the payment behaviour (strands_tools/consolidated_sales_tool.py:202-211). */
  const PaymentColumns := Cat(PaymentColumns1) + Cat(PaymentColumns2) + Cat(PaymentColumns3) + Cat(PaymentColumns4) + Cat(PaymentColumns5) + Cat(PaymentColumns6)

  const PaymentColumns1 := [
    "SELECT", " \"Customer", " ID\",", " COUNT(*)", " as", " total_transactions,",
    " SUM(\"Customer", " Payment\")", " as", " total_payments,"]

  const PaymentColumns2 := [
    " SUM(\"Gross", " Profit\")", " as", " total_gross_profit,", " AVG(\"Customer",
    " Payment\")", " as", " avg_payment_amount,"]

  const PaymentColumns3 := [
    " COUNT(CASE", " WHEN", " \"Customer", " Payment\"", " =", " 0", " THEN", " 1", " END)",
    " as", " zero_payment_count,", " COUNT(CASE", " WHEN", " \"Customer"]

  const PaymentColumns4 := [
    " Payment\"", " >", " 0", " THEN", " 1", " END)", " as", " paid_transaction_count,",
    " ROUND((COUNT(CASE", " WHEN", " \"Customer", " Payment\"", " =", " 0"]

  const PaymentColumns5 := [
    " THEN", " 1", " END)", " *", " 100.0", " /", " COUNT(*)),", " 2)", " as",
    " zero_payment_percentage,", " ROUND((SUM(\"Customer", " Payment\")", " /"]

  const PaymentColumns6 := [
    " NULLIF(SUM(\"Gross", " Profit\"),", " 0))", " *", " 100,", " 2)", " as",
    " payment_to_profit_ratio"]

  lemma PaymentColumnsPlain()
    ensures Plain(PaymentColumns)
  {
    PaymentColumns1Plain();
    PaymentColumns2Plain();
    PaymentColumns3Plain();
    PaymentColumns4Plain();
    PaymentColumns5Plain();
    PaymentColumns6Plain();
  }

  lemma PaymentColumns1Plain()
    ensures Plain(Cat(PaymentColumns1))
  {
    CatPlain(PaymentColumns1);
  }

  lemma PaymentColumns2Plain()
    ensures Plain(Cat(PaymentColumns2))
  {
    CatPlain(PaymentColumns2);
  }

  lemma PaymentColumns3Plain()
    ensures Plain(Cat(PaymentColumns3))
  {
    CatPlain(PaymentColumns3);
  }

  lemma PaymentColumns4Plain()
    ensures Plain(Cat(PaymentColumns4))
  {
    CatPlain(PaymentColumns4);
  }

  lemma PaymentColumns5Plain()
    ensures Plain(Cat(PaymentColumns5))
  {
    CatPlain(PaymentColumns5);
  }

  lemma PaymentColumns6Plain()
    ensures Plain(Cat(PaymentColumns6))
  {
    CatPlain(PaymentColumns6);
  }

  /** The SELECT list of the lifetime value (strands_tools/consolidated_sales_tool.py:222-232). */
  const LifetimeColumns := Cat(LifetimeColumns1) + Cat(LifetimeColumns2) + Cat(LifetimeColumns3) + Cat(LifetimeColumns4) + Cat(LifetimeColumns5) + Cat(LifetimeColumns6)

  const LifetimeColumns1 := [
    "SELECT", " \"Customer", " ID\",", " COUNT(*)", " as", " lifetime_transactions,",
    " SUM(\"Gross", " Profit\")", " as"]

  const LifetimeColumns2 := [
    " lifetime_gross_profit,", " SUM(\"Net", " Profit\")", " as", " lifetime_net_profit,",
    " SUM(\"Customer", " Payment\")", " as"]

  const LifetimeColumns3 := [
    " lifetime_payments,", " AVG(\"Gross", " Profit\")", " as", " avg_transaction_value,",
    " ROUND(SUM(\"Net", " Profit\")", " /"]

  const LifetimeColumns4 := [
    " COUNT(*),", " 2)", " as", " avg_profit_per_transaction,", " COUNT(DISTINCT",
    " \"Category\")", " as", " category_diversity,"]

  const LifetimeColumns5 := [
    " COUNT(DISTINCT", " \"Merchant_Name\")", " as", " merchant_diversity,",
    " ROUND((SUM(\"Net", " Profit\")", " /", " NULLIF(SUM(\"Gross"]

  const LifetimeColumns6 := [
    " Profit\"),", " 0))", " *", " 100,", " 2)", " as", " overall_margin_pct"]

  lemma LifetimeColumnsPlain()
    ensures Plain(LifetimeColumns)
  {
    LifetimeColumns1Plain();
    LifetimeColumns2Plain();
    LifetimeColumns3Plain();
    LifetimeColumns4Plain();
    LifetimeColumns5Plain();
    LifetimeColumns6Plain();
  }

  lemma LifetimeColumns1Plain()
    ensures Plain(Cat(LifetimeColumns1))
  {
    CatPlain(LifetimeColumns1);
  }

  lemma LifetimeColumns2Plain()
    ensures Plain(Cat(LifetimeColumns2))
  {
    CatPlain(LifetimeColumns2);
  }

  lemma LifetimeColumns3Plain()
    ensures Plain(Cat(LifetimeColumns3))
  {
    CatPlain(LifetimeColumns3);
  }

  lemma LifetimeColumns4Plain()
    ensures Plain(Cat(LifetimeColumns4))
  {
    CatPlain(LifetimeColumns4);
  }

  lemma LifetimeColumns5Plain()
    ensures Plain(Cat(LifetimeColumns5))
  {
    CatPlain(LifetimeColumns5);
  }

  lemma LifetimeColumns6Plain()
    ensures Plain(Cat(LifetimeColumns6))
  {
    CatPlain(LifetimeColumns6);
  }

  /** The SELECT list of the profitability analysis (strands_tools/consolidated_sales_tool.py:243-252). */
  const ProfitabilityColumns := Cat(ProfitabilityColumns1) + Cat(ProfitabilityColumns2) + Cat(ProfitabilityColumns3) + Cat(ProfitabilityColumns4) + Cat(ProfitabilityColumns5)

  const ProfitabilityColumns1 := [
    "SELECT", " \"Customer", " ID\",", " COUNT(*)", " as", " transaction_count,",
    " SUM(\"Gross", " Profit\")", " as", " total_gross_profit,"]

  const ProfitabilityColumns2 := [
    " SUM(\"Net", " Profit\")", " as", " total_net_profit,", " SUM(\"Gross", " Profit\")",
    " -", " SUM(\"Net", " Profit\")", " as", " total_costs,"]

  const ProfitabilityColumns3 := [
    " ROUND((SUM(\"Net", " Profit\")", " /", " NULLIF(SUM(\"Gross", " Profit\"),", " 0))",
    " *", " 100,", " 2)", " as", " profit_margin,"]

  const ProfitabilityColumns4 := [
    " ROUND(SUM(\"Net", " Profit\")", " /", " COUNT(*),", " 2)", " as",
    " avg_profit_per_transaction,", " MAX(\"Net", " Profit\")", " as"]

  const ProfitabilityColumns5 := [
    " highest_profit_transaction,", " MIN(\"Net", " Profit\")", " as",
    " lowest_profit_transaction"]

  lemma ProfitabilityColumnsPlain()
    ensures Plain(ProfitabilityColumns)
  {
    ProfitabilityColumns1Plain();
    ProfitabilityColumns2Plain();
    ProfitabilityColumns3Plain();
    ProfitabilityColumns4Plain();
    ProfitabilityColumns5Plain();
  }

  lemma ProfitabilityColumns1Plain()
    ensures Plain(Cat(ProfitabilityColumns1))
  {
    CatPlain(ProfitabilityColumns1);
  }

  lemma ProfitabilityColumns2Plain()
    ensures Plain(Cat(ProfitabilityColumns2))
  {
    CatPlain(ProfitabilityColumns2);
  }

  lemma ProfitabilityColumns3Plain()
    ensures Plain(Cat(ProfitabilityColumns3))
  {
    CatPlain(ProfitabilityColumns3);
  }

  lemma ProfitabilityColumns4Plain()
    ensures Plain(Cat(ProfitabilityColumns4))
  {
    CatPlain(ProfitabilityColumns4);
  }

  lemma ProfitabilityColumns5Plain()
    ensures Plain(Cat(ProfitabilityColumns5))
  {
    CatPlain(ProfitabilityColumns5);
  }

}
