# Marketing-channel query tools: statement assembly and result shaping

The repository exposes eight channel tool modules to a language-model agent:
linear TV, LinkedIn, TikTok, SEO organic traffic, connected TV, Bing, email
and consolidated sales. Each tool does the same work over a PostgreSQL table.

- It turns optional keyword arguments into two parallel lists: WHERE (or
  HAVING) condition texts with `%s` placeholders, and the values psycopg2
  binds to them.
- It picks a SELECT column list, a whitelisted ORDER BY and a period bucket.
- It appends the limit last.
- It executes the statement and hands back one of:
  - a sentinel message when there are no rows;
  - the rows;
  - a (rows, summary) pair;
  - a formatted report;
  - an `Error ...: <message>` string.

This project models that work and proves what it guarantees.

**Generic statement.** `Sql.Stmt` is one statement with these parts, in order:

- a fixed head;
- a keyword and its conditions;
- a middle text, such as a GROUP BY;
- HAVING conditions;
- a tail;
- an optional bound limit.

`Sql.Text` and `Sql.Params` give the SQL string and the parameter list that
the tools produce. `Sql.Holes` counts placeholders the way psycopg2 reads
them: `%s` takes a value and `%%` is a literal percent. `Sql.Bind` stands for
the driver's substitution. A text without placeholders is sent as it is,
with `%%` read as `%`, whatever the parameters. A text with placeholders
binds exactly when their count equals the parameter count.

**Per-tool model.** Each tool's builder is an imperative method that appends
to the two lists step by step, as the source does. It is proved equal to a
statement function. Lemmas about that statement state the properties:

- the parameter list, in order;
- the limit last;
- the summary parameters, which are the main ones without the limit;
- the date-operator and days-back rules;
- the sort whitelists;
- that every well-formed statement binds.

**The server.** The database is a parameter `Shape.Server` that maps a filled
statement to rows or to a refusal. `Shape.Execute` reports a placeholder
mismatch as the driver's error, except for a text without placeholders, which
reaches the server with its parameters dropped. For each tool, an `...Answers` lemma shows
that the result depends only on the server's answer to the filled statement.
The `...Outcome` functions state that result exactly: the message, rows,
pair, report or error prefix, and the trend, within the limits listed under
"## Left out".

Modules follow the source files:

| module | source |
|---|---|
| Sql | the generic statement, psycopg2's placeholder binding |
| Filters | optional-argument conditions, the date rules, period buckets |
| Shape | execution, result shapes, trends, sums and row formatting faults |
| LinearTv | strands_tools/Linear_tv_ads.py |
| Campaign | the statements shared by strands-tools/Linkedin_ads_tool.py and tools/tiktok_ads_tool.py |
| Linkedin | strands-tools/Linkedin_ads_tool.py result shaping |
| Tiktok | tools/tiktok_ads_tool.py result shaping |
| Seo | strands_tools/seo_organic_tools.py |
| ConnectedTv | strands-tools/Connected_tv_ads.py |
| Bing | strands_tools/bing_tools.py |
| Email | tools/email_tools.py |
| Sales | strands_tools/consolidated_sales_tool.py |

**Quirks of the source, modelled as written:**

- Bing ignores its `source` argument.
- The first `get_campaign_performance` in the email module is shadowed by the
  second. It interpolates its values into the text and also passes them as
  parameters. The driver then sends the text without them, and the tool
  still ends in its error string because it prints the undefined `result`.
- Connected TV tests the unassigned `campaign_results`, so the performance
  tool always ends in its error string.
- Connected TV's rate metrics are never keys of the trend rows.
- SEO flips `bounce_rate` to ascending.
- Sales ignores `sort_by` for the category and merchant analyses.
- `min_transactions` defaults to 1.
- The linear-TV comparison adds
  `network ILIKE LOWER(%s) OR network ILIKE LOWER(%s)` without parentheses, so
  after the `AND` join the OR binds loosest. The model keeps the text exactly
  as the source writes it.

## Model

| member | source | states |
|---|---|---|
| Sql.IntParam | strands_tools/Linear_tv_ads.py:164 | an omitted limit is bound as SQL NULL, a given one as that integer |
| Sql.Like | strands_tools/Linear_tv_ads.py:135-137 | the `%v%` pattern: the value wrapped in one `%` on each side, nothing else |
| Sql.Bind | strands_tools/Linear_tv_ads.py:170 | binding succeeds exactly when the placeholder count equals the parameter count or the text has no placeholder; a placeholder-free text is sent with no parameters |
| Sql.HolesConcat | strands_tools/Linear_tv_ads.py:149 | placeholders of a concatenation add up when the seam does not form a new `%s` or `%%` |
| Sql.PlainHoles | strands_tools/Linear_tv_ads.py:163 | text without `%` has no placeholders |
| Sql.FillConcat | strands_tools/Linear_tv_ads.py:149 | binding a concatenation is binding each part with its own slice of the parameters |
| Sql.Section | strands_tools/Linear_tv_ads.py:148-149 | the keyword and joined conditions appear exactly when there is at least one condition |
| Sql.JoinFills | strands_tools/Linear_tv_ads.py:149 | `" AND ".join` of sound conditions has as many placeholders as their joined arguments, and binds condition by condition |
| Sql.SectionFills | strands_tools/Linear_tv_ads.py:148-149 | the WHERE section binds its conditions' arguments in order |
| Sql.AddWhere | strands_tools/Linear_tv_ads.py:148-149 | `query += " WHERE " + " AND ".join(...)` when non-empty is the statement's section |
| Sql.Push | strands_tools/Linear_tv_ads.py:126-128 | appending a condition appends its text and its parameters and changes nothing before |
| Sql.ArgsConcat | strands_tools/Linear_tv_ads.py:126-146 | the parameters of consecutive condition blocks are the blocks' parameters in order |
| Sql.StmtShape | strands_tools/Linear_tv_ads.py:148-164 | a statement without GROUP BY or HAVING is head, WHERE section, tail and limit slot, with the WHERE arguments then the limit |
| Sql.NoConditions | strands_tools/Linear_tv_ads.py:147-149 | with no conditions the text has no WHERE and only the limit is bound |
| Sql.StmtBinds | strands_tools/Linear_tv_ads.py:170 | a well-formed statement has as many placeholders as parameters and binds to its filled form |
| Sql.LimitBinds | strands_tools/Linear_tv_ads.py:163-164 | the trailing `%s` takes the last parameter, the limit |
| Sql.LimitLast | strands_tools/Linear_tv_ads.py:200-203 | the limit is the last parameter and dropping it leaves the WHERE then HAVING parameters |
| Sql.CatPlain | strands_tools/Linear_tv_ads.py:196-211 | fixed multi-line SQL without `%` has no placeholders |
| Filters.Digits | strands_tools/Linear_tv_ads.py:307 | an interpolated count is written as decimal digits only |
| Filters.DigitsRoundTrip | strands_tools/Linear_tv_ads.py:307 | reading the written digits back gives the number |
| Filters.IntText | strands_tools/Linear_tv_ads.py:507 | an interpolated integer is `%`-free text, with a minus sign when negative |
| Filters.OptIntText | strands_tools/seo_organic_tools.py:305 | an interpolated optional integer reads `None` when omitted |
| Filters.MetricColumns | strands-tools/Linkedin_ads_tool.py:147-151 | a non-empty metric list is joined with `", "`; no list or an empty one gives the default columns |
| Filters.JoinPlain | strands-tools/Linkedin_ads_tool.py:151 | joining `%`-free names gives `%`-free text |
| Filters.LowerIs | strands_tools/Linear_tv_ads.py:162 | `s.lower() == w` holds exactly for the ASCII case variants of `w` |
| Filters.UpperAsc | strands_tools/seo_organic_tools.py:220 | an order that lowers to `asc` upper-cases to `ASC` |
| Filters.UpperPlain | strands_tools/seo_organic_tools.py:220 | upper-casing keeps text `%`-free |
| Filters.Single | strands_tools/Linear_tv_ads.py:126-128 | one optional filter contributes its own condition and value |
| Filters.Pair | strands-tools/Linkedin_ads_tool.py:128-134 | two filters contribute their conditions and values in call order |
| Filters.Triple | strands_tools/consolidated_sales_tool.py:105-117 | three filters contribute their conditions and values in call order |
| Filters.Quad | tools/email_tools.py:196-207 | four filters contribute their values in call order |
| Filters.Concat | strands_tools/Linear_tv_ads.py:126-146 | a run of filters split anywhere gives the conditions and values of the two halves in order |
| Filters.ConcatConds | strands_tools/Linear_tv_ads.py:126-146 | the conditions of a split run of filters are those of the halves in order |
| Filters.ConcatValues | strands_tools/Linear_tv_ads.py:126-146 | the values of a split run of filters are those of the halves in order |
| Filters.ZeroThreshold | strands_tools/seo_organic_tools.py:186-197 | an `is not None` threshold of 0 still adds a clause and binds 0; a truthiness threshold of 0 adds nothing |
| Filters.FilterArgCases | strands_tools/Linear_tv_ads.py:126-146 | an absent filter binds nothing, a present value filter exactly one value, a flag or fixed clause none |
| Filters.CondsValues | strands_tools/Linear_tv_ads.py:126-146 | the parameter list is exactly the values of the present filters, in order |
| Filters.CondsEmpty | strands_tools/Linear_tv_ads.py:147-149 | for value filters, no condition is emitted exactly when no value is bound |
| Filters.FilterCondSound | strands_tools/Linear_tv_ads.py:126-146 | each present filter adds one clause with as many `%s` as values |
| Filters.CondsSound | strands_tools/Linear_tv_ads.py:126-146 | every clause a run of filters adds has as many `%s` as values |
| Filters.AppendFilter | strands_tools/Linear_tv_ads.py:126-128 | the `if v: conditions.append(...); params.append(...)` step keeps the two lists equal to the conditions and values of the filters seen so far |
| Filters.OpText | strands-tools/Linkedin_ads_tool.py:140-142 | the comparison operator interpolated into `date <op> %s` is non-empty and `%`-free |
| Filters.DateTexts | strands-tools/Linkedin_ads_tool.py:137-142 | `date BETWEEN %s AND %s` has two placeholders and `date <op> %s` one |
| Filters.DateRule | strands-tools/Linkedin_ads_tool.py:137-142 | the date rule adds at most one sound clause |
| Filters.DateRuleCases | strands-tools/Linkedin_ads_tool.py:137-142 | BETWEEN with both dates exactly when both are set and the operator is between; else date_from alone with the operator; date_to alone adds nothing |
| Filters.AppendDateRule | strands_tools/bing_tools.py:146-151 | the date branch leaves the two lists equal to the earlier conditions plus the date rule |
| Filters.WindowTexts | strands_tools/Linear_tv_ads.py:303-311 | `date >= %s` and `date <= %s` have one placeholder; the days-back clause none |
| Filters.Window | strands_tools/Linear_tv_ads.py:303-311 | the window clauses are sound |
| Filters.WindowCases | strands_tools/Linear_tv_ads.py:303-311 | date_from is bound before date_to; a parameter-free days-back clause appears exactly when neither is given |
| Filters.AppendWindow | strands_tools/Linear_tv_ads.py:303-311 | the window branch leaves the lists equal to the earlier conditions plus the window |
| Filters.PeriodBucketPlain | strands_tools/Linear_tv_ads.py:316-324 | the GROUP BY and period expressions are `%`-free |
| Filters.PeriodBucket | strands_tools/Linear_tv_ads.py:316-324 | the GROUP BY expression and label format for the period; stated by Filters.PeriodBucketPlain and Filters.PeriodBucketCases |
| Filters.PeriodBucketCases | strands_tools/Linear_tv_ads.py:316-324 | weekly is week-truncated `YYYY-MM-DD`, monthly month-truncated `YYYY-MM`, anything else the raw date |
| Shape.Execute | strands_tools/Linear_tv_ads.py:170 | `cursor.execute` raises the arity error exactly when the text has placeholders and their count differs from the parameters'; otherwise the server's answer to the filled statement, a placeholder-free one filled with nothing |
| Shape.Answer2Fetch | strands_tools/Linear_tv_ads.py:170-171 | a server answer is never mistaken for an arity error |
| Shape.StmtExecutes | strands_tools/Linear_tv_ads.py:170-171 | a well-formed statement executes as its filled form |
| Shape.FirstRow | strands_tools/seo_organic_tools.py:437-439 | `fetchone` is the first row, or nothing for no rows |
| Shape.RowsOrMessage | strands_tools/seo_organic_tools.py:227-233 | the error prefix for a failure, the sentinel exactly for no rows, the rows otherwise |
| Shape.SummaryData | strands-tools/Linkedin_ads_tool.py:179-180 | the summary row, or an empty dict when the summary query returns nothing |
| Shape.Get | strands-tools/Connected_tv_ads.py:326 | `row.get(key, default)` |
| Shape.Float | strands-tools/Connected_tv_ads.py:326 | `float(v)` succeeds exactly on numbers |
| Shape.TrendOf | strands_tools/bing_tools.py:315-321 | no trend for at most one row; it fails only when the first or last value is not a number |
| Shape.TrendMeaning | strands_tools/bing_tools.py:315-321 | a trend has at least two rows and first > 0; increasing iff last > first iff the change is positive; equal values read decreasing; first·(1+change/100) = last |
| Shape.TrendAbsent | strands_tools/bing_tools.py:319 | with two numeric rows, no trend exactly when the first value is not positive |
| Shape.TrendMissingKey | strands-tools/Connected_tv_ads.py:325-331 | a key absent from every row gives no trend |
| Shape.Column | strands_tools/Linear_tv_ads.py:386 | `row[key]` as a number, or a key or type error |
| Shape.ColumnSum | strands_tools/Linear_tv_ads.py:386-388 | the sum succeeds exactly when every row holds a number under the key |
| Shape.ColumnSumSplit | strands_tools/Linear_tv_ads.py:386-388 | the sum over two runs of rows is the sum of their sums |
| Shape.ColumnMax | strands_tools/Linear_tv_ads.py:398-400 | the maximum is one of the values and bounds them all; it succeeds exactly when every row holds a number |
| Shape.FieldFault | strands_tools/bing_tools.py:211-218 | a missing key raises KeyError; a numeric format on text raises TypeError; otherwise the field is written |
| Shape.FieldsFault | strands_tools/bing_tools.py:209-218 | a row is written exactly when each field is; otherwise the first failing field's fault |
| Shape.RowsFaultMeaning | strands_tools/bing_tools.py:209-218 | all rows are written exactly when each row is; otherwise the fault is some row's fault |
| Shape.RowsFaultFrom | strands_tools/bing_tools.py:209-218 | the loop stops at the first row that fails |
| Shape.WriteLines | strands_tools/bing_tools.py:209-218 | the `for row in ...: output += f"..."` loop raises exactly the first row's fault, if any |
| Shape.CombineResultsAsDict | strands_tools/Linear_tv_ads.py:60-67 | keeps summary and results; `has_data` iff `total_count > 0` iff results are non-empty; the count is the row count |
| LinearTv.AnalyzeCondTexts | strands_tools/Linear_tv_ads.py:126-146 | each analyze clause has exactly one `%s` |
| LinearTv.AnalyzeWhere | strands_tools/Linear_tv_ads.py:126-146 | the seven optional filters append their clauses and values in source order |
| LinearTv.AnalyzeMatches | strands_tools/Linear_tv_ads.py:126-137 | the start-date, end-date, network and program-keyword filters append their clauses and values in source order |
| LinearTv.BuildAnalyzeQuery | strands_tools/Linear_tv_ads.py:123-164 | the conditions are the analyze clauses; with no sort_order the AttributeError of `None.lower()`; otherwise the query and parameters are the analyze statement's, the limit last |
| LinearTv.BuildAnalyzeSummary | strands_tools/Linear_tv_ads.py:182-203 | the summary query is the summary statement, with `params[:-1]` only when there are conditions |
| LinearTv.AnalyzeWellFormed | strands_tools/Linear_tv_ads.py:123-203 | both analyze statements bind |
| LinearTv.AnalyzeCondsSound | strands_tools/Linear_tv_ads.py:126-146 | every analyze clause carries as many `%s` as values |
| LinearTv.SortField | strands_tools/Linear_tv_ads.py:152-161 | the ORDER BY column for sort_by; its cases are stated by LinearTv.SortFieldCases |
| LinearTv.OrderWord | strands_tools/Linear_tv_ads.py:162 | `"ASC" if sort_order.lower() == "asc" else "DESC"`, or AttributeError for None; its cases are stated by LinearTv.OrderWordCases |
| LinearTv.SortFieldCases | strands_tools/Linear_tv_ads.py:152-161 | a key outside the six-key mapping gives `date`; conversion_rate its expression; other keys themselves |
| LinearTv.OrderWordCases | strands_tools/Linear_tv_ads.py:162 | an AttributeError exactly when sort_order is None; ASC exactly when it lowers to `asc`, DESC otherwise |
| LinearTv.AnalyzeParams | strands_tools/Linear_tv_ads.py:126-164 | the parameters are the present filter values then the limit; the summary's are the same without the limit |
| LinearTv.AnalyzeNoFilters | strands_tools/Linear_tv_ads.py:147-149 | with no filter there is no WHERE, the limit is the only parameter and the summary has none |
| LinearTv.AnalyzeOutcome | strands_tools/Linear_tv_ads.py:173-245 | no rows give the sentinel; rows without a summary request fall through to no value; the pair when the summary is non-empty; errors carry the tool's prefix |
| LinearTv.AnalyzeNeverArity | strands_tools/Linear_tv_ads.py:170 | the tool never fails on the parameter count |
| LinearTv.AnalyzeTvNetwork | strands_tools/Linear_tv_ads.py:85-249 | `linear_tv_analyze_tv_network`: the AttributeError text for a None sort_order, else the analyze outcome of the server's answers; stated by LinearTv.AnalyzeAnswers and LinearTv.AnalyzeSummaryAnswers |
| LinearTv.AnalyzeAnswers | strands_tools/Linear_tv_ads.py:162-245 | no sort_order gives the tool's error text with AttributeError; otherwise the server's answer decides: the sentinel, no value, or the error text |
| LinearTv.AnalyzeSummaryAnswers | strands_tools/Linear_tv_ads.py:162-213 | no sort_order gives the AttributeError text; otherwise, with a summary requested, the pair when the summary row is non-empty, otherwise the rows |
| LinearTv.TrendCondTexts | strands_tools/Linear_tv_ads.py:291-301 | the network, program and source LIKE clauses each have one `%s` |
| LinearTv.TrendsWhere | strands_tools/Linear_tv_ads.py:288-311 | the three LIKE filters, then the date window, appended in order |
| LinearTv.BuildTrendsQuery | strands_tools/Linear_tv_ads.py:288-343 | the query and parameters are the trends statement's |
| LinearTv.TrendsCondsSound | strands_tools/Linear_tv_ads.py:288-311 | every trends clause is sound |
| LinearTv.TrendsWellFormed | strands_tools/Linear_tv_ads.py:326-343 | the trends statement binds |
| LinearTv.TrendsParams | strands_tools/Linear_tv_ads.py:288-311 | WHERE is always present; the parameters are the LIKE values then date_from then date_to |
| LinearTv.TrendsCondsArgs | strands_tools/Linear_tv_ads.py:288-311 | there is always a condition; its arguments are the LIKE values then the dates |
| LinearTv.MetricKeyCases | strands_tools/Linear_tv_ads.py:372 | each of the four documented metrics names a selected aggregate alias (frequency reads `avg_frequency`); a metric outside them reads `avg_` and names no selected alias |
| LinearTv.PeriodLineOf | strands_tools/Linear_tv_ads.py:408-410 | a breakdown line's conversion and reach rates are the ratios over impressions, or 0 for no impressions |
| LinearTv.Breakdown | strands_tools/Linear_tv_ads.py:408-422 | one line per row, each the row's line, or the first row's fault |
| LinearTv.BreakdownPrefixErr | strands_tools/Linear_tv_ads.py:408-422 | a failing row stops the breakdown at that row |
| LinearTv.BuildBreakdown | strands_tools/Linear_tv_ads.py:408-422 | the breakdown loop computes the breakdown |
| LinearTv.TotalsOf | strands_tools/Linear_tv_ads.py:386-389 | the four column sums succeed exactly when every row holds numbers in those columns |
| LinearTv.TotalsMeaning | strands_tools/Linear_tv_ads.py:386-389 | the totals are the column sums |
| LinearTv.CountsOf | strands_tools/Linear_tv_ads.py:398-400 | the unique-count maxima succeed exactly when every row holds numbers there |
| LinearTv.CountsMeaning | strands_tools/Linear_tv_ads.py:398-400 | each count is attained by some row and bounds every row |
| LinearTv.OverallOf | strands_tools/Linear_tv_ads.py:389-397 | average frequency is the sum over the period count; the overall rate exists iff impressions > 0 and is conversions·100/impressions |
| LinearTv.Ratio | strands_tools/Linear_tv_ads.py:397 | the rate formula times impressions gives conversions·100 |
| LinearTv.TrendsReportOf | strands_tools/Linear_tv_ads.py:370-422 | a report failure is a data fault |
| LinearTv.TrendsReportDefined | strands_tools/Linear_tv_ads.py:370-422 | the report is written exactly when the rows are reportable |
| LinearTv.TrendsReportMeaning | strands_tools/Linear_tv_ads.py:370-422 | the report holds the period count, the trend on the metric key, the totals, the overall figures and counts |
| LinearTv.TrendsOutcome | strands_tools/Linear_tv_ads.py:353-427 | the report exactly when the rows are non-empty and reportable; failures carry ` Error processing trends: ` |
| LinearTv.TrendsNeverArity | strands_tools/Linear_tv_ads.py:349 | the trends tool never fails on the parameter count |
| LinearTv.NetworkAndProgramTrends | strands_tools/Linear_tv_ads.py:260-435 | `linear_tv_get_network_and_program_trends`: the trends outcome of the server's answer; stated by LinearTv.TrendsAnswers |
| LinearTv.TrendsOutcomeFaults | strands_tools/Linear_tv_ads.py:353-427 | shaping never produces an arity error |
| LinearTv.TrendsAnswers | strands_tools/Linear_tv_ads.py:349-427 | the sentinel for no rows, the error text for a refusal, a report iff reportable |
| LinearTv.ComparisonCondTexts | strands_tools/Linear_tv_ads.py:471-475 | the positive clause has no `%s`, the two-network clause two |
| LinearTv.ComparisonWhere | strands_tools/Linear_tv_ads.py:471-488 | the fixed clause, the network pair, then the date window, appended in order |
| LinearTv.BuildComparisonQuery | strands_tools/Linear_tv_ads.py:471-508 | the query and parameters are the comparison statement's |
| LinearTv.ComparisonCondsSound | strands_tools/Linear_tv_ads.py:471-488 | every comparison clause is sound |
| LinearTv.ComparisonWellFormed | strands_tools/Linear_tv_ads.py:493-508 | with a `%`-free metric the comparison statement binds |
| LinearTv.ComparisonParams | strands_tools/Linear_tv_ads.py:474-488 | WHERE always present; two network patterns exactly when both names are given, then the dates; top_n is not bound |
| LinearTv.ComparisonCondsArgs | strands_tools/Linear_tv_ads.py:471-488 | the first clause is always there; the arguments are the pair then the dates |
| LinearTv.ComparisonOutcome | strands_tools/Linear_tv_ads.py:518-551 | the sentinel for no rows, the rows otherwise, the prefixed error |
| LinearTv.ComparisonNeverArity | strands_tools/Linear_tv_ads.py:515 | with a `%`-free metric the tool never fails on the parameter count |
| LinearTv.NetworkComparison | strands_tools/Linear_tv_ads.py:445-557 | `linear_tv_get_network_comparison`: the comparison outcome of the server's answer; stated by LinearTv.ComparisonAnswers |
| LinearTv.ComparisonAnswers | strands_tools/Linear_tv_ads.py:515-551 | the server's answer decides the sentinel, the rows or the error text |
| Campaign.WhereTexts | strands-tools/Linkedin_ads_tool.py:128-142 | the name, id and date clauses have one `%s` each |
| Campaign.HavingTexts | strands-tools/Linkedin_ads_tool.py:451-464 | the spend and impressions clauses have one `%s`; the conversion clauses none |
| Campaign.PerformanceWhere | strands-tools/Linkedin_ads_tool.py:128-142 | name LIKE, id equality, then the date rule, appended in order |
| Campaign.BuildPerformanceQuery | strands-tools/Linkedin_ads_tool.py:128-167 | the query and parameters are the performance statement's |
| Campaign.BuildSummaryQuery | strands-tools/Linkedin_ads_tool.py:178-201 | the summary query reuses the WHERE clause with the parameters minus the limit |
| Campaign.PerformanceCondsSound | strands-tools/Linkedin_ads_tool.py:128-142 | every performance clause is sound |
| Campaign.PerformanceWellFormed | strands-tools/Linkedin_ads_tool.py:147-201 | with `%`-free metric names both statements bind |
| Campaign.PerformanceHeadPlain | strands-tools/Linkedin_ads_tool.py:147-161 | the SELECT head has no placeholder |
| Campaign.SelectClauseCases | strands-tools/Linkedin_ads_tool.py:147-151 | the key-column prefix, then the joined metrics or the four defaults |
| Campaign.PerformanceParams | strands-tools/Linkedin_ads_tool.py:128-180 | name pattern, id, date values, then the limit; the summary's are the same without the limit |
| Campaign.TrendsWhere | strands-tools/Linkedin_ads_tool.py:293-307 | name LIKE, then the date window, appended in order |
| Campaign.BuildTrendsQuery | strands-tools/Linkedin_ads_tool.py:293-335 | the query and parameters are the trends statement's |
| Campaign.TrendsWellFormed | strands-tools/Linkedin_ads_tool.py:320-335 | the trends statement binds |
| Campaign.TrendsParams | strands-tools/Linkedin_ads_tool.py:293-307 | WHERE always present; the parameters are the name pattern, date_from, date_to |
| Campaign.SearchWhere | strands-tools/Linkedin_ads_tool.py:437-448 | term LIKE then the two dates, appended in order |
| Campaign.SearchHaving | strands-tools/Linkedin_ads_tool.py:451-464 | spend, impressions, conversion presence, appended after the WHERE parameters |
| Campaign.BuildSearchQuery | strands-tools/Linkedin_ads_tool.py:437-495 | the query and parameters are the search statement's |
| Campaign.SearchWellFormed | strands-tools/Linkedin_ads_tool.py:472-495 | the search statement binds |
| Campaign.SearchFixedPlain | strands-tools/Linkedin_ads_tool.py:472-493 | the fixed search text has no placeholder |
| Campaign.SearchCondsSound | strands-tools/Linkedin_ads_tool.py:437-464 | every search clause is sound |
| Campaign.SearchParams | strands-tools/Linkedin_ads_tool.py:437-495 | WHERE values, then HAVING values, then the limit |
| Campaign.SearchWhereArgs | strands-tools/Linkedin_ads_tool.py:437-448 | the WHERE values are the term pattern then the dates |
| Campaign.SearchHavingArgs | strands-tools/Linkedin_ads_tool.py:451-458 | the HAVING values are min_spend then min_impressions |
| Campaign.SearchHavingCases | strands-tools/Linkedin_ads_tool.py:451-469 | HAVING is empty exactly when no threshold and no flag is given; the flag adds `> 0` or `= 0` last |
| Linkedin.PerformanceOutcome | strands-tools/Linkedin_ads_tool.py:206-249 | the pair exactly when rows and summary are both non-empty, otherwise the rows; errors carry the prefix |
| Linkedin.GetCampaignPerformance | strands-tools/Linkedin_ads_tool.py:99-255 | `linkedin_get_campaign_performance`: both queries run, then the performance outcome; stated by Linkedin.PerformanceAnswers |
| Linkedin.PerformanceNeverArity | strands-tools/Linkedin_ads_tool.py:175-201 | with `%`-free metric names the tool never fails on the parameter count |
| Linkedin.PerformanceAnswers | strands-tools/Linkedin_ads_tool.py:175-249 | both statements bind; the result is the outcome of the two server answers |
| Linkedin.GetCampaignTrends | strands-tools/Linkedin_ads_tool.py:266-393 | `linkedin_get_campaign_trends`: rows, sentinel or error text for the trends query; stated by Linkedin.TrendsAnswers |
| Linkedin.TrendsAnswers | strands-tools/Linkedin_ads_tool.py:342-387 | the trend rows, the no-trend sentinel, or the error text |
| Linkedin.SearchSimilarCampaigns | strands-tools/Linkedin_ads_tool.py:404-537 | `linkedin_search_similar_campaigns`: rows, sentinel or error text for the search query; stated by Linkedin.SearchAnswers |
| Linkedin.SearchAnswers | strands-tools/Linkedin_ads_tool.py:507-531 | the matching rows, the no-campaign sentinel, or the error text |
| Tiktok.PerformanceOutcome | tools/tiktok_ads_tool.py:178-208 | the pair whenever the summary is non-empty, even with no rows; otherwise the rows |
| Tiktok.GetCampaignPerformance | tools/tiktok_ads_tool.py:71-214 | `get_campaign_performance`: both queries run, then the performance outcome; stated by Tiktok.PerformanceAnswers |
| Tiktok.PerformanceNeverArity | tools/tiktok_ads_tool.py:151-152 | with `%`-free metric names the tool never fails on the parameter count |
| Tiktok.PerformanceAnswers | tools/tiktok_ads_tool.py:136-208 | both statements bind; the result is the outcome of the two server answers |
| Tiktok.GetCampaignTrends | tools/tiktok_ads_tool.py:225-351 | `get_campaign_trends`: rows, sentinel or error text for the trends query; stated by Tiktok.TrendsAnswers |
| Tiktok.TrendsAnswers | tools/tiktok_ads_tool.py:301-345 | the trend rows, the no-trend sentinel, or the error text |
| Tiktok.SearchSimilarCampaigns | tools/tiktok_ads_tool.py:362-508 | `search_similar_campaigns`: rows, sentinel or error text for the search query; stated by Tiktok.SearchAnswers |
| Tiktok.SearchAnswers | tools/tiktok_ads_tool.py:458-501 | the rows or "No Relevant campaigns found", or the error text |
| Seo.PageTexts | strands_tools/seo_organic_tools.py:180-200 | the URL, date and source clauses have one `%s` each |
| Seo.ThresholdTexts | strands_tools/seo_organic_tools.py:186-197 | the three threshold clauses have one `%s` each |
| Seo.PageWhere | strands_tools/seo_organic_tools.py:177-203 | the seven filters append their clauses and values in source order |
| Seo.PageOrderBy | strands_tools/seo_organic_tools.py:206-222 | the ORDER BY text for sort_by and sort_order, or the AttributeError of `None.upper()`; its cases are stated by Seo.PageOrderByCases |
| Seo.PageDates | strands_tools/seo_organic_tools.py:180-188 | the URL pattern and the two dates, in order |
| Seo.BuildPageQuery | strands_tools/seo_organic_tools.py:177-225 | the query and parameters are the page statement's for the chosen ORDER BY, or the sort's fault |
| Seo.PageOrderByCases | strands_tools/seo_organic_tools.py:206-222 | `date` is not a key; unknown or absent keys give `ORDER BY ad_date DESC`; a mapped key with no order raises AttributeError |
| Seo.PageOrderByPlain | strands_tools/seo_organic_tools.py:216-222 | the ORDER BY text has no placeholder |
| Seo.BounceRateAscending | strands_tools/seo_organic_tools.py:216-220 | bounce_rate sorts ascending whenever the order lowers to asc or desc |
| Seo.PageWellFormed | strands_tools/seo_organic_tools.py:177-225 | the page statement binds |
| Seo.PageCondsSound | strands_tools/seo_organic_tools.py:177-203 | every page clause is sound |
| Seo.PageParams | strands_tools/seo_organic_tools.py:177-225 | URL pattern, dates, thresholds by `is not None`, source pattern, then the limit |
| Seo.PageValues | strands_tools/seo_organic_tools.py:177-203 | the filter values in source order |
| Seo.PageAnswers | strands_tools/seo_organic_tools.py:206-259 | a mapped key without order fails with the prefix; otherwise the rows, the sentinel or the error text |
| Seo.GetPageAnalytics | strands_tools/seo_organic_tools.py:127-264 | `get_page_analytics`: the sort fault with the prefix, or rows, sentinel or error text; stated by Seo.PageAnswers |
| Seo.GroupingOf | strands_tools/seo_organic_tools.py:289-396 | daily_trends and source select their branches; anything else the overall branch |
| Seo.DailyHeadPlain | strands_tools/seo_organic_tools.py:291-305 | the daily query with its interpolated window has no placeholder |
| Seo.SummaryWhere | strands_tools/seo_organic_tools.py:356-366 | the dates then the source pattern, appended in order |
| Seo.BuildSummaryQuery | strands_tools/seo_organic_tools.py:289-436 | the query and parameters are the statement of the chosen branch |
| Seo.BuildSourceQuery | strands_tools/seo_organic_tools.py:337-377 | the query and parameters are the by-source statement's |
| Seo.BuildOverallQuery | strands_tools/seo_organic_tools.py:396-436 | the query and parameters are the overall statement's |
| Seo.BuildDailyQuery | strands_tools/seo_organic_tools.py:289-317 | the query and parameters are the daily statement's |
| Seo.DailySection | strands_tools/seo_organic_tools.py:309-311 | source adds ` AND ` and its clause with one pattern, or nothing |
| Seo.DailyWellFormed | strands_tools/seo_organic_tools.py:289-317 | the daily statement binds |
| Seo.DailyParams | strands_tools/seo_organic_tools.py:289-317 | only the source pattern is bound, at most one value |
| Seo.SummaryWellFormed | strands_tools/seo_organic_tools.py:337-436 | the by-source and overall statements bind |
| Seo.SummaryCondsSound | strands_tools/seo_organic_tools.py:356-366 | every summary clause is sound |
| Seo.SummaryParams | strands_tools/seo_organic_tools.py:356-436 | dates then source pattern, the same for both branches |
| Seo.OverallOutcome | strands_tools/seo_organic_tools.py:436-442 | no data when the row is missing or `total_records == 0`; the row otherwise; a KeyError for a row without that column |
| Seo.SummaryAnswers | strands_tools/seo_organic_tools.py:289-462 | each branch's result is decided by the server's answer to its filled statement |
| Seo.GetAnalyticsSummary | strands_tools/seo_organic_tools.py:267-467 | `get_analytics_summary`: the chosen branch's statement executed and shaped; stated by Seo.SummaryAnswers |
| ConnectedTv.WhereTexts | strands-tools/Connected_tv_ads.py:109-123 | the slot, platform and date clauses have one `%s` each |
| ConnectedTv.HavingTexts | strands-tools/Connected_tv_ads.py:416-426 | the impressions clause has one `%s`; the conversion clauses none |
| ConnectedTv.PerformanceWhere | strands-tools/Connected_tv_ads.py:109-123 | slot LIKE, platform equality, then the date rule, appended in order |
| ConnectedTv.BuildPerformanceQuery | strands-tools/Connected_tv_ads.py:106-147 | the query and parameters are the performance statement's |
| ConnectedTv.BuildSummaryQuery | strands-tools/Connected_tv_ads.py:159-177 | the summary query reuses the WHERE clause with the parameters minus the limit |
| ConnectedTv.PerformanceCondsSound | strands-tools/Connected_tv_ads.py:109-123 | every performance clause is sound |
| ConnectedTv.PerformanceWellFormed | strands-tools/Connected_tv_ads.py:128-179 | with `%`-free metric names both statements bind |
| ConnectedTv.PerformanceHeadPlain | strands-tools/Connected_tv_ads.py:128-141 | the SELECT head has no placeholder |
| ConnectedTv.SelectClauseCases | strands-tools/Connected_tv_ads.py:128-132 | the key-column prefix, then the joined metrics or the four defaults |
| ConnectedTv.DefaultsJoined | strands-tools/Connected_tv_ads.py:132 | the default column text is the four default metrics joined |
| ConnectedTv.PerformanceParams | strands-tools/Connected_tv_ads.py:109-160 | slot pattern, platform, date values, then the limit; the summary's are the same without the limit |
| ConnectedTv.PerformanceOutcome | strands-tools/Connected_tv_ads.py:155-218 | always the error string: a query error, the summary's format fault, or the NameError on `campaign_results` |
| ConnectedTv.GetPlatformPerformance | strands-tools/Connected_tv_ads.py:80-226 | `get_platform_performance`: both queries run, then the performance outcome; stated by ConnectedTv.PerformanceAnswers and ConnectedTv.PerformanceAlwaysFails |
| ConnectedTv.NoMatchFormatFault | strands-tools/Connected_tv_ads.py:185-194 | a summary of NULL aggregates fails on the numeric format |
| ConnectedTv.PerformanceAnswers | strands-tools/Connected_tv_ads.py:155-218 | both statements bind; the result is the outcome of the two server answers |
| ConnectedTv.PerformanceAlwaysFails | strands-tools/Connected_tv_ads.py:197-218 | whatever the server answers, the tool returns "Error processing request: ..." |
| ConnectedTv.TrendsWhere | strands-tools/Connected_tv_ads.py:266-284 | slot LIKE, platform, then the date window, appended in order |
| ConnectedTv.BuildTrendsQuery | strands-tools/Connected_tv_ads.py:263-310 | the query and parameters are the trends statement's |
| ConnectedTv.TrendsWellFormed | strands-tools/Connected_tv_ads.py:297-310 | the trends statement binds |
| ConnectedTv.TrendsParams | strands-tools/Connected_tv_ads.py:266-284 | WHERE always present; slot pattern, platform, date_from, date_to |
| ConnectedTv.RateMetricsNoTrend | strands-tools/Connected_tv_ads.py:325-331 | completion_rate and click_through_rate are not trend-row keys, so there is never a trend |
| ConnectedTv.CountMetricsTrend | strands-tools/Connected_tv_ads.py:325-331 | for impressions and conversions a trend exists iff the first value is positive |
| ConnectedTv.TrendsOutcome | strands-tools/Connected_tv_ads.py:320-350 | the sentinel for no rows, a report iff the trend and every line format, otherwise a prefixed fault |
| ConnectedTv.TrendsAnswers | strands-tools/Connected_tv_ads.py:317-350 | the statement binds; the result is the outcome of the server's answer |
| ConnectedTv.GetPlatformTrends | strands-tools/Connected_tv_ads.py:237-357 | `get_platform_trends`: the trends outcome of the server's answer; stated by ConnectedTv.TrendsAnswers |
| ConnectedTv.SearchWhere | strands-tools/Connected_tv_ads.py:397-414 | term LIKE, platform, dates, appended in order |
| ConnectedTv.SearchHaving | strands-tools/Connected_tv_ads.py:416-426 | impressions threshold then conversion presence, after the WHERE parameters |
| ConnectedTv.BuildSearchQuery | strands-tools/Connected_tv_ads.py:394-452 | the query and parameters are the search statement's |
| ConnectedTv.SearchWellFormed | strands-tools/Connected_tv_ads.py:431-452 | the search statement binds |
| ConnectedTv.SearchFixedPlain | strands-tools/Connected_tv_ads.py:431-449 | the fixed search text has no placeholder |
| ConnectedTv.SearchCondsSound | strands-tools/Connected_tv_ads.py:397-426 | every search clause is sound |
| ConnectedTv.SearchParams | strands-tools/Connected_tv_ads.py:397-452 | WHERE values, then min_impressions, then the limit |
| ConnectedTv.SearchWhereArgs | strands-tools/Connected_tv_ads.py:397-414 | the WHERE values in source order |
| ConnectedTv.SearchHavingCases | strands-tools/Connected_tv_ads.py:416-429 | HAVING is empty exactly when no threshold and no flag; the flag adds `> 0` or `= 0` last |
| ConnectedTv.SearchAnswers | strands-tools/Connected_tv_ads.py:459-491 | the rows, "No similar result has been found", or the error text |
| ConnectedTv.SearchSimilarAdSlot | strands-tools/Connected_tv_ads.py:368-497 | `search_similar_ad_slot`: rows, sentinel or error text for the search query; stated by ConnectedTv.SearchAnswers |
| Bing.FromPlain | strands_tools/bing_tools.py:134 | the fixed `source = 'Bing Ads'` clause is a sound clause without placeholders |
| Bing.PerformanceWhere | strands_tools/bing_tools.py:134-151 | the fixed clause, name LIKE, id, then the date rule, appended in order |
| Bing.BuildPerformanceQuery | strands_tools/bing_tools.py:134-161 | the query and parameters are the performance statement's |
| Bing.BuildSummaryQuery | strands_tools/bing_tools.py:170-188 | the summary query and `params[:-1] if limit and params else params` are the summary statement's |
| Bing.PerformanceCondsSound | strands_tools/bing_tools.py:134-151 | every performance clause is sound |
| Bing.PerformanceWellFormed | strands_tools/bing_tools.py:153-188 | with `%`-free metric names both statements bind |
| Bing.PerformanceHeadPlain | strands_tools/bing_tools.py:116-132 | the SELECT head has no placeholder |
| Bing.PerformanceCondsFirst | strands_tools/bing_tools.py:134 | the fixed source clause is always first, so WHERE is always emitted |
| Bing.OrderBy | strands_tools/bing_tools.py:156-161 | a truthy limit orders by spend and ends in ` LIMIT `, else the newest dates come first; Bing.PerformanceParams states that the limit is bound exactly then |
| Bing.PerformanceValues | strands_tools/bing_tools.py:134-151 | the WHERE values are the name pattern, the id and the date values |
| Bing.PerformanceParams | strands_tools/bing_tools.py:157-188 | the limit is bound last only when truthy; the summary's parameters drop it exactly then |
| Bing.SourceIgnored | strands_tools/bing_tools.py:91-161 | the `source` argument changes neither statement |
| Bing.PrintedSummary | strands_tools/bing_tools.py:194 | the summary is printed exactly when its row is non-empty |
| Bing.PerformanceOutcome | strands_tools/bing_tools.py:191-226 | the report exactly when the summary and every row format; errors carry the prefix |
| Bing.NoMatchFormatFault | strands_tools/bing_tools.py:194-204 | a summary of NULL aggregates fails on the numeric format even with no rows |
| Bing.PerformanceAnswers | strands_tools/bing_tools.py:166-226 | both statements bind; the result is the outcome of the two server answers |
| Bing.GetCampaignPerformance | strands_tools/bing_tools.py:88-230 | `get_campaign_performance_for_bing`: both queries run, then the report outcome; stated by Bing.PerformanceAnswers |
| Bing.TrendsWhere | strands_tools/bing_tools.py:259-274 | the fixed clause, name LIKE, then the date window, appended in order |
| Bing.TrendsCondsFirst | strands_tools/bing_tools.py:259 | the fixed source clause is first |
| Bing.BuildTrendsQuery | strands_tools/bing_tools.py:259-302 | the query and parameters are the trends statement's |
| Bing.TrendsWellFormed | strands_tools/bing_tools.py:288-302 | the trends statement binds |
| Bing.TrendsParams | strands_tools/bing_tools.py:259-274 | the name pattern, date_from, date_to |
| Bing.TrendsDaysBack | strands_tools/bing_tools.py:269-270 | with no dates the last clause is the parameter-free days-back clause |
| Bing.MetricsAreColumns | strands_tools/bing_tools.py:288-321 | every trend metric is a selected alias; the trend exists iff the first value is positive |
| Bing.TrendsOutcome | strands_tools/bing_tools.py:310-340 | the sentinel for no rows, a report iff the trend and every line format, otherwise a prefixed fault |
| Bing.TrendsAnswers | strands_tools/bing_tools.py:307-340 | the statement binds; the result is the outcome of the server's answer |
| Bing.GetCampaignTrends | strands_tools/bing_tools.py:234-346 | `get_campaign_trends`: the trends outcome of the server's answer; stated by Bing.TrendsAnswers |
| Bing.SearchWhere | strands_tools/bing_tools.py:375-387 | the fixed clause, term LIKE, then the dates, appended in order |
| Bing.SearchHaving | strands_tools/bing_tools.py:392-401 | min_spend then conversion presence, after the WHERE parameters |
| Bing.SearchCondsFirst | strands_tools/bing_tools.py:375 | the fixed source clause is first |
| Bing.BuildSearchQuery | strands_tools/bing_tools.py:375-428 | the query and parameters are the search statement's |
| Bing.SearchWellFormed | strands_tools/bing_tools.py:407-428 | the search statement binds |
| Bing.SearchFixedPlain | strands_tools/bing_tools.py:407-425 | the fixed search text has no placeholder |
| Bing.SearchCondsSound | strands_tools/bing_tools.py:375-401 | every search clause is sound |
| Bing.SearchParams | strands_tools/bing_tools.py:375-428 | term pattern, dates, min_spend, then the limit |
| Bing.SearchWhereValues | strands_tools/bing_tools.py:375-387 | the WHERE values are the term pattern then the dates |
| Bing.SearchOutcome | strands_tools/bing_tools.py:436-465 | the sentinel for no rows, a report iff every row formats, otherwise a prefixed fault |
| Bing.SearchAnswers | strands_tools/bing_tools.py:433-465 | the statement binds; the result is the outcome of the server's answer |
| Bing.SearchSimilarCampaigns | strands_tools/bing_tools.py:350-469 | `search_similar_campaigns`: the search outcome of the server's answer; stated by Bing.SearchAnswers |
| Email.BoundMeaning | tools/email_tools.py:65-152 | a module name is bound to its last definition |
| Email.Bound | tools/email_tools.py:65-152 | the module namespace after each `def` rebinds its name; stated by Email.BoundMeaning |
| Email.FirstPerformanceShadowed | tools/email_tools.py:152 | `get_campaign_performance` is the second definition; the first is reachable under no name |
| Email.FloatText | tools/email_tools.py:105-109 | an interpolated threshold is `%`-free text |
| Email.LegacyWhere | tools/email_tools.py:93-109 | id, dates, then the two rate thresholds, appended in order with their values |
| Email.LegacyRates | tools/email_tools.py:104-109 | the two rate thresholds interpolate the value and bind it divided by 100 |
| Email.LegacyDates | tools/email_tools.py:95-103 | the id and date clauses interpolate their values and bind them |
| Email.BuildLegacyQuery | tools/email_tools.py:95-115 | the query text and parameter list the shadowed definition builds |
| Email.LegacyOutcome | tools/email_tools.py:118-144 | always the error string: the query's error, or the NameError on the undefined `result` |
| Email.LegacyCondsFree | tools/email_tools.py:95-109 | with `%`-free values no legacy clause has a placeholder |
| Email.LegacyWherePlain | tools/email_tools.py:111-112 | the legacy WHERE section has no placeholder |
| Email.LegacyHeadPlain | tools/email_tools.py:81-91 | the legacy SELECT has no placeholder |
| Email.LegacyPlain | tools/email_tools.py:81-115 | the whole legacy query, LIMIT included, has no placeholder |
| Email.LegacyReachesServer | tools/email_tools.py:114-144 | zero placeholders against at least one parameter: the text reaches the server unbound, and the tool returns its error text with the server's fault or the NameError on `result` |
| Email.LegacyPerformance | tools/email_tools.py:65-149 | the shadowed `get_campaign_performance`: its statement executed, then the error text; stated by Email.LegacyReachesServer |
| Email.MetricKeysMatch | tools/email_tools.py:167-172 | the three metric keys are exactly the mapping's |
| Email.TopWhere | tools/email_tools.py:196-207 | the fixed clause, start, end, id, appended in order |
| Email.BuildTopQuery | tools/email_tools.py:177-234 | the query and parameters are the top-campaigns statement for the metric |
| Email.TopCondsFirst | tools/email_tools.py:196 | `emails_sent > 0` is always first |
| Email.TopParams | tools/email_tools.py:196-234 | start, end, id, then the limit |
| Email.TopValues | tools/email_tools.py:196-207 | the WHERE values are start, end, id |
| Email.OrderEndsInLimit | tools/email_tools.py:212-232 | every per-metric ORDER BY ends in ` LIMIT ` |
| Email.TopWellFormed | tools/email_tools.py:177-234 | the top-campaigns statement binds |
| Email.TopOutcome | tools/email_tools.py:241-277 | the sentinel for no rows; a report with the singular heading iff `limit == 1`, else the row count; a prefixed fault |
| Email.InvalidMetricRefused | tools/email_tools.py:173-174 | the invalid-metric message exactly for a metric outside the mapping |
| Email.TopAnswers | tools/email_tools.py:237-277 | for a valid metric the statement binds and the server's answer decides |
| Email.GetCampaignPerformance | tools/email_tools.py:152-284 | the bound `get_campaign_performance`: the invalid-metric message, or the top-campaigns outcome; stated by Email.InvalidMetricRefused and Email.TopAnswers |
| Email.SummaryWhere | tools/email_tools.py:324-332 | id, start, end, appended in order |
| Email.BuildSummaryQuery | tools/email_tools.py:300-335 | the query and parameters are the summary statement's |
| Email.SummaryWellFormed | tools/email_tools.py:300-335 | the summary statement binds |
| Email.SummaryParams | tools/email_tools.py:324-332 | the id, start and end values |
| Email.SummaryOutcome | tools/email_tools.py:337-360 | no data for a missing row or `total_campaigns == 0`; the row when it formats; a KeyError without that column |
| Email.SummaryAnswers | tools/email_tools.py:337-360 | the statement binds; the result is the outcome of the server's answer |
| Email.GetCampaignSummary | tools/email_tools.py:287-365 | `get_campaign_summary`: the summary outcome of the server's answer; stated by Email.SummaryAnswers |
| Email.SubjectParams | tools/email_tools.py:448 | exactly two parameters: the keyword pattern, then the limit |
| Email.SubjectWellFormed | tools/email_tools.py:433-448 | the subject statement binds |
| Email.SubjectOutcome | tools/email_tools.py:451-468 | the sentinel naming the keyword for no rows, a report iff every row formats, a prefixed fault |
| Email.SubjectAnswers | tools/email_tools.py:448-468 | the statement binds; the result is the outcome of the server's answer |
| Email.SearchCampaignsBySubject | tools/email_tools.py:424-473 | `search_campaigns_by_subject`: the subject outcome of the server's answer; stated by Email.SubjectAnswers |
| Sales.WhereTexts | strands_tools/consolidated_sales_tool.py:105-117 | the three equality clauses have one `%s` each |
| Sales.HavingTexts | strands_tools/consolidated_sales_tool.py:120-131 | the three threshold clauses have one `%s` each |
| Sales.AnalysisOf | strands_tools/consolidated_sales_tool.py:136-241 | each of the five names selects its branch; anything else, profitability_analysis included, the else branch |
| Sales.SalesWhere | strands_tools/consolidated_sales_tool.py:102-117 | customer id, category, merchant, appended in order |
| Sales.SalesHaving | strands_tools/consolidated_sales_tool.py:120-133 | gross, net and count thresholds, after the WHERE parameters |
| Sales.BuildSalesQuery | strands_tools/consolidated_sales_tool.py:102-261 | the query and parameters are the statement for the analysis type |
| Sales.SalesText | strands_tools/consolidated_sales_tool.py:136-259 | the text is head, WHERE, GROUP BY, HAVING, ORDER BY, then `LIMIT %s` |
| Sales.HeadPlain | strands_tools/consolidated_sales_tool.py:136-255 | each branch's SELECT has no placeholder |
| Sales.OrderPlain | strands_tools/consolidated_sales_tool.py:158 | with a `%`-free sort_by the ORDER BY has no placeholder |
| Sales.GroupPlain | strands_tools/consolidated_sales_tool.py:156 | each GROUP BY has no placeholder |
| Sales.SalesWellFormed | strands_tools/consolidated_sales_tool.py:102-261 | with a `%`-free sort_by the statement binds |
| Sales.SalesCondsSound | strands_tools/consolidated_sales_tool.py:102-133 | every WHERE and HAVING clause is sound |
| Sales.SalesParams | strands_tools/consolidated_sales_tool.py:102-261 | the three WHERE values, the three HAVING values, then the limit |
| Sales.CountCondition | strands_tools/consolidated_sales_tool.py:129-131 | `COUNT(*) >= %s` is present iff min_transactions is truthy; the default 1 binds 1 last in HAVING |
| Sales.SortIgnored | strands_tools/consolidated_sales_tool.py:162-196 | the category and merchant statements do not depend on sort_by |
| Sales.OrderBy | strands_tools/consolidated_sales_tool.py:158-257 | sort_by descending, or the fixed per-customer order for the category and merchant analyses; stated by Sales.SortIgnored and Sales.SortUsed |
| Sales.SortUsed | strands_tools/consolidated_sales_tool.py:158 | the other four branches order by sort_by descending |
| Sales.SalesOutcome | strands_tools/consolidated_sales_tool.py:270-326 | the sentinel for no rows, a report iff every row formats in its branch's layout, a prefixed fault |
| Sales.GenericNeverFormatFails | strands_tools/consolidated_sales_tool.py:309-320 | in the generic layout only a missing `Customer ID` can stop the report |
| Sales.SalesAnswers | strands_tools/consolidated_sales_tool.py:266-326 | with a `%`-free sort_by the statement binds and the server's answer decides |
| Sales.AnalyzeCustomerPurchaseBehavior | strands_tools/consolidated_sales_tool.py:72-331 | `analyze_customer_purchase_behavior`: the sales outcome of the server's answer; stated by Sales.SalesAnswers |

## Left out

- The SQL text is modelled with its whitespace normalised: each run of spaces and newlines between tokens is one space. The source builds it from triple-quoted, indented strings, and the database ignores the difference.
- Sql.Holes does not model psycopg2's error on a `%` followed by a character other than `s` or `%`. The modelled statements contain no such `%` once their interpolated values are `%`-free.
- The report layout is not modelled: titles, title-casing, separators, thousands separators and decimal places. Each report datatype keeps only the values a report is written from.
- `print` debugging, the language-model agent wrappers, the connection pool and cursor handling are not modelled. The database is the `Shape.Server` parameter.
- The database semantics of `ROUND`, `NULLIF`, `DATE_TRUNC`, `TO_CHAR`, `CURRENT_DATE`, `STRING_AGG` and window functions are not modelled. They are opaque text.
- Python floats and Decimals are modelled as `real`, so the trend's percent change is exact. A database text value under a numeric format is modelled as a TypeError. Numeric results are modelled as numbers, whatever Decimal or int they are in the driver.
- Shape.ColumnMax, Shape.Float, Shape.TrendOf and LinearTv.CountsOf model a text value under `max()` or `float()` as a TypeError. Python's `max()` compares texts without raising and `float()` converts numeric text such as `"12"`. These columns are aggregates, for which PostgreSQL sends numbers or NULL, never text.
- Email.FloatText writes an interpolated threshold as its whole part, a dot and its first six fractional digits without zero padding, not as Python's repr. Only its freedom from `%` matters to the model.
- `get_campaign_trends` in tools/email_tools.py is not modelled. It binds no parameter and interpolates its only values, and it is not one of the query builders with bound filters.
- The unreachable trailing `return output` of the TikTok search (tools/tiktok_ads_tool.py:498) has no counterpart.
- Campaign.PerformanceWellFormed, ConnectedTv.PerformanceWellFormed and Bing.PerformanceWellFormed assume metric names free of `%`. The source interpolates them into SELECT unchecked, and a `%` there would change the placeholder count.
- Linkedin.PerformanceNeverArity, Linkedin.PerformanceAnswers, Tiktok.PerformanceNeverArity, Tiktok.PerformanceAnswers, ConnectedTv.PerformanceAnswers, ConnectedTv.PerformanceAlwaysFails and Bing.PerformanceAnswers carry the same assumption.
- LinearTv.ComparisonWellFormed, LinearTv.ComparisonNeverArity and LinearTv.ComparisonAnswers assume a `%`-free metric, which the source interpolates into ORDER BY.
- Sales.SalesWellFormed, Sales.OrderPlain and Sales.SalesAnswers assume a `%`-free sort_by, which the source interpolates into ORDER BY.
- Seo.PageAnswers and Seo.PageOrderByPlain assume a `%`-free sort order, which the source upper-cases into ORDER BY. Seo.PageWellFormed assumes a `%`-free ORDER BY text.
- Email.LegacyCondsFree, Email.LegacyWherePlain, Email.LegacyPlain and Email.LegacyReachesServer assume `%`-free interpolated values. With a `%s` inside a value the placeholder count would change.
- The case-insensitive comparisons (`LOWER`, `UPPER`, `ILIKE`) happen in the database and are not modelled. `sort_order.lower()` (Filters.Lower, used by LinearTv.OrderWord and Seo.PageOrderBy) and `sort_order.upper()` (Filters.Upper, used by Seo.PageOrderBy) are modelled for ASCII letters only. Python's Unicode case mapping would, for example, upper-case `"deſc"` to `DESC`, which the model leaves as `DEſC`.
