# test_reporter in Dafny

A model of the logic of test_reporter, a set of Python scripts that read
JUnit XML test results and turn them into Word reports, plus a helper that
inspects the tables of a Word document. The model covers three scripts.

- **junit_parser2.py.** `JUnitXMLParser` decides how the root element is
  read (`testsuite`, `testsuites` or an error). It fills in suite and case
  attributes with their defaults. It gives each case one status, checked in
  the order failure > error > skipped > passed.
  `WordReportGenerator` then builds the report: a title, an executive
  summary with totals, the success rate and its colour tier, and one
  section per suite. A section has the suite line, the failed and error
  cases with details cut to 500 characters, and either a case table (more
  than ten cases) or a bullet list.
- **junit_parser1.py.** The earlier single-suite parser, with its own
  defaults, and the report it writes: a header run per case and extra runs
  for failed, error and skipped cases.
- **table_analyzer.py.** The helpers of `TableStyleAnalyzer`:
  - colour to hex text and to red/green/blue components;
  - merged-cell detection from the `w:gridSpan` and `w:vMerge` cell
    properties (section 17.4 of ECMA-376 Part 1, WordprocessingML tables);
  - the merge calls of the generated replication code;
  - the font properties of a run and their defaults;
  - the ordered list of font style names;
  - the background fill and border settings of a cell.

The XML input is a parsed element tree (`Xml.Element`: tag, attribute map,
text, children). A Word document is a sequence of blocks (`Docx.Block`):
paragraphs of runs, tables of cells, headings and page breaks. Methods
follow the scripts' loops and appends. Each method is proved equal to a
function, and the lemmas state the scripts' promises about those functions.

Files:
- `common.dfy`: Option and Result.
- `numbers.dfy`: Python's `int()` on decimal text, `str()` of an integer,
  and uppercase zero-padded hex formatting.
- `seqs.dfy`: list comprehensions with a filter.
- `xml.dfy`: `find`, `findall` and `get` of ElementTree.
- `junit.dfy`: the status rule shared by both parsers.
- `junit2.dfy`, `report2.dfy`: the parser and the report generator of
  junit_parser2.py.
- `junit1.dfy`: junit_parser1.py.
- `docx.dfy`: document blocks.
- `table.dfy`: table_analyzer.py.

Behaviour of the scripts worth noting:
- In junit_parser2.py a missing suite count is 0. It is not derived by
  counting the cases. Only junit_parser1.py falls back to the number of
  cases, and only for `tests`.
- The two scripts do not share one set of status colours. junit_parser1.py
  colours error results orange; junit_parser2.py colours them red.
- A count attribute that is not a decimal integer makes `int()` raise.
  The model states this as an `Err(InvalidInteger(text))` outcome, not as
  an assumption that attributes are well formed.

## Model

| member | source | states |
|---|---|---|
| Numbers.ParseInt | junit_parser2.py:86-89 | `int()` of a count attribute succeeds exactly on optionally signed decimal text; a leading minus gives a value <= 0, any other text a value >= 0 |
| Numbers.ShowInt | junit_parser2.py:211-216 | Python's `str()` of an integer, a minus sign before the digits of a negative one; no contract of its own; its promises are stated by ParseShowInt, and by ShowNat for the digits |
| Numbers.FormatHex | table_analyzer.py:40-47 | the `{n:0wX}` format; no contract of its own; its promises are stated by FormatHexNonNegative and FormatHexFixed |
| Numbers.ShowNat | junit_parser2.py:212-217 | `str()` of a non-negative integer is a non-empty run of decimal digits |
| Numbers.DigitsOfShowNat | junit_parser2.py:212-217 | the digits `str()` writes read back as the same number |
| Numbers.ParseShowInt | junit_parser2.py:212-217 | `int(str(n)) == n` for every integer, negative ones included |
| Numbers.ParseShowNat | junit_parser2.py:212-217 | `int(str(n)) == n` for every non-negative integer |
| Numbers.ParseNegative | junit_parser2.py:212-217 | a minus sign followed by the digits of m reads as -m |
| Numbers.HexDigitValue | table_analyzer.py:40 | every uppercase hex digit is the digit written for its value, which is below 16 |
| Numbers.HexNat | table_analyzer.py:43 | hex formatting of a non-negative integer gives non-empty uppercase hex digits |
| Numbers.HexValueOfHexNat | table_analyzer.py:43 | the hex digits of n read back as n |
| Numbers.HexValueOfZerosPrefix | table_analyzer.py:43 | zero padding in front of hex digits does not change their value |
| Numbers.FormatHexNonNegative | table_analyzer.py:43 | `{n:0wX}` is uppercase hex of value n, exactly w digits when n fits in w digits and longer otherwise |
| Numbers.FormatHexFixed | table_analyzer.py:40 | when n fits in w hex digits, `{n:0wX}` is the fixed-width w-digit representation |
| Numbers.FixedHexSplit | table_analyzer.py:40 | a fixed-width hex string of a+b digits is the a high digits followed by the b low digits |
| Numbers.PadZeros | table_analyzer.py:43 | zero padding to width w gives a string of length max(len, w) |
| Xml.FindAll | junit_parser2.py:76 | `findall(tag)` yields only direct children with that tag |
| Xml.FindAllSelects | junit_parser2.py:76 | `findall(tag)` holds exactly the direct children with that tag, in document order, each as often as it occurs |
| Xml.Find | junit_parser2.py:105-107 | `find(tag)` succeeds iff some direct child has the tag, and then yields the first such child |
| Xml.NoneWhenNoneTagged | junit_parser1.py:12 | `findall` is empty iff no direct child carries the tag |
| Xml.AllTagged | junit_parser2.py:93 | when every child carries the tag, `findall` yields all children in order |
| Xml.IntAttr | junit_parser2.py:86-89 | `int(e.get(key, default))` fails iff the text is not decimal, and otherwise is its value |
| Xml.Get | junit_parser1.py:13-15 | `elem.get(key, default)`: the attribute when present, else the default; no contract of its own; its promises are stated by CaseOf, SuiteOfFields, SummaryOfFields and BorderOf |
| JUnit.StatusOf | junit_parser2.py:105-125 | failed iff a failure child exists; error iff no failure but an error; skipped iff neither but skipped; passed iff none; exactly one status |
| JUnit.Marker | junit_parser2.py:109-118 | for a failed or error case, the marker read is the first failure or error child, the one `find` returns |
| JUnit.StatusUpper | junit_parser2.py:334 | `status.upper()` of each status spelling; no contract of its own; its promises are stated by LargeSuiteTable and ResultRunsShape |
| JUnit.OrDefault | junit_parser2.py:112-118 | Python's `s or default` on a string; no contract of its own; its promises are stated by CaseOf and ResultOf |
| JUnitParser2.CaseOf | junit_parser2.py:98-125 | name/classname default to "Unknown" and time to "0"; failed/error cases carry the marker's message (default "No message") and text (default "No details"); skipped cases carry "Test skipped" by default; passed cases carry no message |
| JUnitParser2.SuiteOf | junit_parser2.py:83-96 | a parsed suite has one case per `testcase` child |
| JUnitParser2.SuiteOfFields | junit_parser2.py:83-96 | a suite parses iff its four counts are decimal; the first bad count in the order tests, failures, errors, skipped is the error, `InvalidInteger` of its text; name defaults to "Unknown", counts to 0, and cases are the `testcase` children in order |
| JUnitParser2.SuitesOf | junit_parser2.py:76-77 | suites of a `testsuites` root parse iff each one does, one result per child, in order |
| JUnitParser2.SuitesOfFirstError | junit_parser2.py:76-77 | the error raised is the first failing suite's error |
| JUnitParser2.SuitesOfAllOk | junit_parser2.py:76-77 | when every child parses, the result is exactly those suites, one per child, in order |
| JUnitParser2.ParsedSuites | junit_parser2.py:62-81 | a `testsuite` root gives exactly that one suite, or that suite's error; a `testsuites` root gives exactly `SuitesOf` of its `testsuite` children: one suite per child in order, or the first failing child's error; any other root is an `UnexpectedRoot` error, never an empty list |
| JUnitParser2.ParseTestSuite | junit_parser2.py:83-96 | the loop appending parsed cases builds exactly `SuiteOf` of the element, the error case included |
| JUnitParser2.ParseTestCases | junit_parser2.py:92-94 | one parsed case per element, in order |
| JUnitParser2.ParseSuiteList | junit_parser2.py:75-77 | the loop over the `testsuite` children yields all their suites in order, or the error of the first one that fails |
| JUnitParser2.Parse | junit_parser2.py:62-81 | the parse method returns exactly the root dispatch result |
| JUnitParser2.CaseRoundTrip | junit_parser2.py:98-125 | a well-formed case written as a `testcase` element parses back to itself |
| JUnitParser2.CasesRoundTrip | junit_parser2.py:92-94 | a list of written cases parses back to the same list |
| JUnitParser2.SuiteRoundTrip | junit_parser2.py:83-96 | a well-formed suite written as a `testsuite` element parses back to itself |
| JUnitParser2.CountRoundTrip | junit_parser2.py:86-89 | a count written with `str()` is read back by `int()` as the same count |
| JUnitParser2.ReportRoundTrip | junit_parser2.py:62-81 | a list of suites written under a `testsuites` root parses back to the same list |
| JUnitParser2.CountsNotReconciled | junit_parser2.py:86-96 | a suite's declared `tests` need not equal its number of cases; nothing reconciles them |
| JUnitParser2.CasesOf | junit_parser2.py:92-94 | the cases of the `testcase` children, one per element in order; no contract of its own; its promises are stated by ParseTestCases, SuiteOf and CasesRoundTrip |
| JUnitReport2.TotalPassedIsSumOfSuites | junit_parser2.py:199-203 | the total passed count equals the sum of the per-suite passed counts shown in the sections |
| JUnitReport2.TotalPassedBounds | junit_parser2.py:199-203 | when each suite's declared counts are consistent, 0 <= passed <= tests |
| JUnitReport2.NegativePassedPossible | junit_parser2.py:259 | inconsistent declared counts give a negative passed count, which the suite line shows as is |
| JUnitReport2.TotalsExample | junit_parser2.py:199-247 | tests=10, failures=2, errors=1, skipped=1 gives passed 6 and the red tier; totals sum over suites |
| JUnitReport2.RateAtLeast | junit_parser2.py:234 | for total > 0, rate >= k iff passed*100 >= k*total |
| JUnitReport2.RateAtMost | junit_parser2.py:234 | for total > 0, rate <= k iff passed*100 <= k*total |
| JUnitReport2.RateBounds | junit_parser2.py:234 | with 0 <= passed <= total the rate lies in 0..100 |
| JUnitReport2.TierByCounts | junit_parser2.py:234-247 | the tier is green iff total > 0 and passed*100 >= 95*total, orange iff 80*total <= passed*100 below that, red otherwise; a zero total is red |
| JUnitReport2.SuccessRateColor | junit_parser2.py:233-247 | the success-rate run is green, orange or red under exactly those integer conditions, with inclusive lower bounds |
| JUnitReport2.SummaryRows | junit_parser2.py:210-232 | the summary table has six label/value rows, bold labels and plain values, the third being the passed row |
| JUnitReport2.SummaryRowsReadBack | junit_parser2.py:203-222 | each row reads back as its caption and its total; "Passed" is tests less failures, errors and skips |
| JUnitReport2.ExecutiveSummaryTable | junit_parser2.py:198-222 | over a list of suites the rows read back as the number of suites and the sums of tests, passed (the sum of each suite's passed count), failures, errors and skips |
| JUnitReport2.ClauseStarts | junit_parser2.py:257-274 | each clause of the suite line starts with its caption |
| JUnitReport2.OptionalClauseOnly | junit_parser2.py:262-272 | an optional clause contributes one run iff its count is > 0, and none that looks like a different clause |
| JUnitReport2.FixedRunsNoClause | junit_parser2.py:257-274 | the tests, passed and time runs never read as a Failed, Errors or Skipped clause |
| JUnitReport2.SuiteLineMembers | junit_parser2.py:256-274 | the suite line is tests, passed, the optional clauses and time; its second run is the green passed clause |
| JUnitReport2.LineClauseIff | junit_parser2.py:262-272 | a caption shows in a line exactly when its own clause is present |
| JUnitReport2.SuiteLineClauses | junit_parser2.py:256-274 | Failed, Errors and Skipped clauses appear iff the respective count > 0; the line has 3 runs plus one per such clause |
| JUnitReport2.FailedTestsSelect | junit_parser2.py:277 | the failed list is exactly the failed and error cases, in their original order, each as often as it occurs |
| JUnitReport2.Truncate | junit_parser2.py:305-308 | details up to 500 characters are unchanged; longer ones become their first 500 characters and "..." (503 characters) |
| JUnitReport2.NoteBulletsShape | junit_parser2.py:299-311 | message and details lines of a failed case are third-level bullets |
| JUnitReport2.FailedDetailsShape | junit_parser2.py:278-281 | the failure details consist of second and third level bullets only |
| JUnitReport2.FailedTestCount | junit_parser2.py:294-297 | each failed case contributes exactly one second-level bullet, its name |
| JUnitReport2.FailedDetailsCount | junit_parser2.py:278-281 | the failure details hold one name bullet per failed case |
| JUnitReport2.CaseLinesShape | junit_parser2.py:353-368 | every case line is a "List Bullet" paragraph |
| JUnitReport2.FailuresPartShape | junit_parser2.py:276-281 | the failures part holds only paragraphs, none of them a section heading |
| JUnitReport2.CasesPartShape | junit_parser2.py:283-287 | the case listing holds no section heading, and for ten cases or fewer only paragraphs |
| JUnitReport2.SectionShape | junit_parser2.py:255-289 | no block of a section after its heading is a section heading; for ten cases or fewer, all are paragraphs |
| JUnitReport2.SectionHeadingOfSuite | junit_parser2.py:253 | each suite section contributes exactly its heading "Test Suite: name" |
| JUnitReport2.SuiteTitles | junit_parser2.py:175-176 | one title per suite, in order, "Test Suite: " followed by its name |
| JUnitReport2.SectionsHeadings | junit_parser2.py:175-176 | the sections' headings are the suite titles in order |
| JUnitReport2.LeadingHeadingOnly | junit_parser2.py:196 | four blocks of which only the first is a heading contribute that heading alone |
| JUnitReport2.TitleHeadings | junit_parser2.py:181-192 | the title part holds no section heading |
| JUnitReport2.SummaryHeadings | junit_parser2.py:194-249 | the executive summary contributes the single heading "Executive Summary" |
| JUnitReport2.FooterHeadings | junit_parser2.py:370-377 | the footer holds no section heading |
| JUnitReport2.ReportHeadings | junit_parser2.py:170-178 | the report's section headings are "Executive Summary" followed by one "Test Suite: name" per suite, in order |
| JUnitReport2.SectionTableIffMany | junit_parser2.py:284-287 | a section holds a table iff its suite has more than ten cases |
| JUnitReport2.FailuresPartCount | junit_parser2.py:277-281 | the failures part lists each failed or error case once |
| JUnitReport2.SectionFailedCount | junit_parser2.py:251-289 | a section names exactly its failed and error cases |
| JUnitReport2.FailuresPartIffFailing | junit_parser2.py:277-279 | the "Failed/Error Tests:" part is present iff some case failed or errored |
| JUnitReport2.SmallSuiteListing | junit_parser2.py:346-368 | an empty case list adds nothing; otherwise a "Test Cases:" line and one bullet per case, in order: its mark coloured by status, then `classname.name (time s)` |
| JUnitReport2.LargeSuiteTable | junit_parser2.py:315-344 | a "Test Cases Summary:" line, then a grid table: the bold header row "Test Name", "Class", "Status", "Time (s)" and one row per case, in order, with its name, class, upper-case status in its colour, and time |
| JUnitReport2.ReportGenerator.constructor | junit_parser2.py:131-133 | a new generator has an empty document and the three custom styles |
| JUnitReport2.ReportGenerator.SetupStyles | junit_parser2.py:135-168 | adds the three custom styles and leaves the body alone |
| JUnitReport2.ReportGenerator.GenerateReport | junit_parser2.py:170-179 | appends title, executive summary, one section per suite and footer, in that order |
| JUnitReport2.ReportGenerator.AddTitle | junit_parser2.py:181-192 | appends the title, the timestamp line and a spacer |
| JUnitReport2.ReportGenerator.AddExecutiveSummary | junit_parser2.py:194-249 | appends heading, summary table, success-rate line and spacer |
| JUnitReport2.ReportGenerator.AddTestSuiteSection | junit_parser2.py:251-289 | appends the section: heading, suite line, failures part, case listing, spacer |
| JUnitReport2.ReportGenerator.AddFailuresPart | junit_parser2.py:277-281 | appends the failures heading and details only when some case failed |
| JUnitReport2.ReportGenerator.AddCasesPart | junit_parser2.py:284-287 | appends the table above ten cases and the bullet list otherwise |
| JUnitReport2.ReportGenerator.AddFailedTests | junit_parser2.py:280-281 | appends the details of each failed case in order |
| JUnitReport2.ReportGenerator.AddFailedTestDetails | junit_parser2.py:291-313 | appends the bold red name bullet, then message and truncated details when they are non-empty |
| JUnitReport2.ReportGenerator.AddTestCaseSummaryTable | junit_parser2.py:315-344 | appends the "Test Cases Summary:" line and the case table |
| JUnitReport2.ReportGenerator.AddDetailedTestCases | junit_parser2.py:346-368 | appends nothing for no cases, otherwise the "Test Cases:" line and the case bullets |
| JUnitReport2.ReportGenerator.AddFooter | junit_parser2.py:370-377 | appends the page break and the closing line |
| JUnitReport2.Sum | junit_parser2.py:199-202 | the `sum(...)` of a per-suite count over the suites; no contract of its own; its promises are stated by TotalPassedIsSumOfSuites and ExecutiveSummaryTable |
| JUnitReport2.SuiteTests | junit_parser2.py:199 | a suite's `tests`, the summand of the total tests; no contract of its own; its promises are stated by ExecutiveSummaryTable |
| JUnitReport2.SuiteFailures | junit_parser2.py:200 | a suite's `failures`; no contract of its own; its promises are stated by ExecutiveSummaryTable |
| JUnitReport2.SuiteErrors | junit_parser2.py:201 | a suite's `errors`; no contract of its own; its promises are stated by ExecutiveSummaryTable |
| JUnitReport2.SuiteSkipped | junit_parser2.py:202 | a suite's `skipped`; no contract of its own; its promises are stated by ExecutiveSummaryTable |
| JUnitReport2.SuitePassed | junit_parser2.py:259 | `suite.tests - suite.failures - suite.errors - suite.skipped`; no contract of its own; its promises are stated by TotalPassedIsSumOfSuites and SuiteLineMembers |
| JUnitReport2.TotalsOf | junit_parser2.py:199-203 | the number of suites and the sums of tests, failures, errors and skips; no contract of its own; its promises are stated by ExecutiveSummaryTable and TotalPassedIsSumOfSuites |
| JUnitReport2.TotalPassed | junit_parser2.py:203 | tests less failures, errors and skips; no contract of its own; its promises are stated by TotalPassedIsSumOfSuites, TotalPassedBounds and NegativePassedPossible |
| JUnitReport2.Consistent | junit_parser2.py:199-203 | counts that are non-negative with outcomes within the total; the hypothesis of TotalPassedBounds and RateBounds |
| JUnitReport2.RatePercent | junit_parser2.py:234 | `success_rate`: passed/total*100, or 0 when there are no tests; no contract of its own; its promises are stated by RateAtLeast, RateAtMost and RateBounds |
| JUnitReport2.TierOfRate | junit_parser2.py:242-247 | green from 95, orange from 80, red below; no contract of its own; its promises are stated by TierByCounts |
| JUnitReport2.TierColor | junit_parser2.py:242-247 | the RGB values of the three tiers; no contract of its own; its promises are stated by SuccessRateColor |
| JUnitReport2.SuccessRun | junit_parser2.py:235-247 | the bold success-rate run in its tier colour; no contract of its own; its promises are stated by SuccessRateColor |
| JUnitReport2.TitleBlocks | junit_parser2.py:181-192 | `_add_title`: title, timestamp line and spacer; no contract of its own; its promises are stated by TitleHeadings and ReportGenerator.AddTitle |
| JUnitReport2.LabelRow | junit_parser2.py:220-229 | a bold caption cell and a plain value cell; no contract of its own; its promises are stated by SummaryRows and SummaryRowsReadBack |
| JUnitReport2.PassedRow | junit_parser2.py:213 | the "Passed" row of the summary table; no contract of its own; its promises are stated by SummaryRowsReadBack and ExecutiveSummaryTable |
| JUnitReport2.ExecutiveSummaryBlocks | junit_parser2.py:194-249 | `_add_executive_summary`: heading, summary table, success-rate line and spacer; no contract of its own; its promises are stated by SummaryHeadings, ExecutiveSummaryTable, SuccessRateColor and ReportGenerator.AddExecutiveSummary |
| JUnitReport2.Clause | junit_parser2.py:257-274 | one `caption: value | ` run of the suite line; no contract of its own; its promises are stated by ClauseStarts and SuiteLineMembers |
| JUnitReport2.OptionalClause | junit_parser2.py:262-272 | the Failed, Errors or Skipped run, present only for a positive count; no contract of its own; its promises are stated by OptionalClauseOnly and SuiteLineClauses |
| JUnitReport2.TestsRun | junit_parser2.py:257 | the opening `Tests: n | ` run; no contract of its own; its promises are stated by FixedRunsNoClause and SuiteLineMembers |
| JUnitReport2.TimeRun | junit_parser2.py:274 | the closing `Time: ...s` run; no contract of its own; its promises are stated by FixedRunsNoClause and SuiteLineMembers |
| JUnitReport2.SuiteLineRuns | junit_parser2.py:256-274 | the runs of a suite's summary line; no contract of its own; its promises are stated by SuiteLineMembers, LineClauseIff and SuiteLineClauses |
| JUnitReport2.IsFailing | junit_parser2.py:277 | status failed or error; no contract of its own; its promises are stated by FailedTestsSelect |
| JUnitReport2.FailedTests | junit_parser2.py:277 | the failed and error cases; no contract of its own; its promises are stated by FailedTestsSelect |
| JUnitReport2.Truthy | junit_parser2.py:300-305 | Python's truth value of an optional string; no contract of its own; its promises are stated by NoteBulletsShape |
| JUnitReport2.NameBullet | junit_parser2.py:294-297 | the bold red `classname.name` bullet of a failing case; no contract of its own; its promises are stated by FailedTestCount and ReportGenerator.AddFailedTestDetails |
| JUnitReport2.NoteBullets | junit_parser2.py:299-313 | the message and truncated-details bullets when present; no contract of its own; its promises are stated by NoteBulletsShape and Truncate |
| JUnitReport2.FailedTestBlocks | junit_parser2.py:291-313 | `_add_failed_test_details`; no contract of its own; its promises are stated by FailedTestCount and ReportGenerator.AddFailedTestDetails |
| JUnitReport2.FailedDetailsBlocks | junit_parser2.py:280-281 | the details of each failing case in order; no contract of its own; its promises are stated by FailedDetailsShape, FailedDetailsCount and ReportGenerator.AddFailedTests |
| JUnitReport2.StatusColor | junit_parser2.py:337-344 | green for passed, red for failed and error, gray for skipped; no contract of its own; its promises are stated by LargeSuiteTable and SmallSuiteListing |
| JUnitReport2.HeaderRow | junit_parser2.py:323-327 | the bold header row of the case table; no contract of its own; its promises are stated by LargeSuiteTable |
| JUnitReport2.CaseRow | junit_parser2.py:330-344 | one case's table row; no contract of its own; its promises are stated by LargeSuiteTable |
| JUnitReport2.CaseRows | junit_parser2.py:330-344 | one row per case in order; no contract of its own; its promises are stated by LargeSuiteTable |
| JUnitReport2.SummaryTableBlocks | junit_parser2.py:315-344 | `_add_test_case_summary_table`; no contract of its own; its promises are stated by LargeSuiteTable and ReportGenerator.AddTestCaseSummaryTable |
| JUnitReport2.IconRun | junit_parser2.py:356-365 | the coloured status mark of a case line; no contract of its own; its promises are stated by SmallSuiteListing |
| JUnitReport2.CaseLine | junit_parser2.py:353-368 | one case's bullet: mark, then `classname.name (time s)`; no contract of its own; its promises are stated by SmallSuiteListing and CaseLinesShape |
| JUnitReport2.CaseLines | junit_parser2.py:353-368 | one bullet per case in order; no contract of its own; its promises are stated by SmallSuiteListing and CaseLinesShape |
| JUnitReport2.DetailedCasesBlocks | junit_parser2.py:346-368 | `_add_detailed_test_cases`; no contract of its own; its promises are stated by SmallSuiteListing and ReportGenerator.AddDetailedTestCases |
| JUnitReport2.FailuresPart | junit_parser2.py:277-281 | the "Failed/Error Tests:" part, empty when nothing failed; no contract of its own; its promises are stated by FailuresPartShape, FailuresPartCount and FailuresPartIffFailing |
| JUnitReport2.CasesPart | junit_parser2.py:284-287 | the case table above ten cases, the bullet list otherwise; no contract of its own; its promises are stated by SectionTableIffMany, CasesPartShape, SmallSuiteListing and LargeSuiteTable |
| JUnitReport2.SectionTitle | junit_parser2.py:253 | the "Test Suite: name" heading; no contract of its own; its promises are stated by SectionHeadingOfSuite |
| JUnitReport2.SectionBody | junit_parser2.py:256-289 | the suite line, failures part, case listing and spacer; no contract of its own; its promises are stated by SectionShape and SectionFailedCount |
| JUnitReport2.SuiteSectionBlocks | junit_parser2.py:251-289 | `_add_test_suite_section`; no contract of its own; its promises are stated by SectionHeadingOfSuite, SectionTableIffMany, SectionFailedCount and ReportGenerator.AddTestSuiteSection |
| JUnitReport2.SectionsBlocks | junit_parser2.py:175-176 | one section per suite in order; no contract of its own; its promises are stated by SectionsHeadings |
| JUnitReport2.FooterBlocks | junit_parser2.py:370-377 | `_add_footer`: page break and closing line; no contract of its own; its promises are stated by FooterHeadings and ReportGenerator.AddFooter |
| JUnitReport2.ReportBlocks | junit_parser2.py:170-179 | `generate_report`: title, summary, sections and footer; no contract of its own; its promises are stated by ReportHeadings and ReportGenerator.GenerateReport |
| JUnitParser1.ResultOf | junit_parser1.py:13-38 | name/classname default to "" and time to "0"; same status priority; failed/error results carry the marker's message (default "") and text (default ""); passed and skipped results carry neither |
| JUnitParser1.TotalAttr | junit_parser1.py:41 | `total` is the `tests` attribute when present, otherwise the number of parsed results |
| JUnitParser1.SummaryOf | junit_parser1.py:7-48 | one well-formed result per direct `testcase` child |
| JUnitParser1.SummaryOfFields | junit_parser1.py:11-47 | parses iff the present counts are decimal; the first bad count in the order tests, failures, errors, skipped is the error, `InvalidInteger` of its text; suite name defaults to "TestSuite", counts to 0, `total` to the number of results; results in document order |
| JUnitParser1.ParseJUnitXml | junit_parser1.py:7-48 | the loop reassigning status, message and details builds exactly `SummaryOf` of the root, the error case included |
| JUnitParser1.NestedSuitesGiveNoResults | junit_parser1.py:12 | a root whose children are all `testsuite` elements yields no results |
| JUnitParser1.AgreesWithParser2 | junit_parser1.py:7-48 | on a `testsuite` root whose `time` attributes are numeric, both parsers succeed together, agree on counts, time, number of cases and each status, and differ on `tests` only when it is absent |
| JUnitParser1.ResultRoundTrip | junit_parser1.py:13-38 | a well-formed result written as a `testcase` element parses back to itself |
| JUnitParser1.ResultsRoundTrip | junit_parser1.py:12-38 | a list of written results parses back to the same list |
| JUnitParser1.SummaryRoundTrip | junit_parser1.py:7-48 | a summary written as a root element parses back to itself |
| JUnitParser1.ResultRunsShape | junit_parser1.py:74-91 | each case gets a bold header run; passed cases get nothing else; others get a Failure/Error/Skipped run in red/orange/gray; a Details run appears iff failed or error with non-empty details |
| JUnitParser1.CreateDocxReport | junit_parser1.py:50-92 | the report is the heading, summary table and spacer, then one paragraph per result in order |
| JUnitParser1.ResultParagraph | junit_parser1.py:75-91 | the paragraph of one result is built from its status branches |
| JUnitParser1.SummaryTableReadsBack | junit_parser1.py:63-68 | the summary table's value row reads back as the summary's counts and time |
| JUnitParser1.ResultsOf | junit_parser1.py:12-38 | one result per `testcase` child in order; no contract of its own; its promises are stated by SummaryOf, SummaryOfFields, ResultsRoundTrip and ParseJUnitXml |
| JUnitParser1.SummaryTableRows | junit_parser1.py:56-68 | the header and value rows of the summary table; no contract of its own; its promises are stated by SummaryTableReadsBack |
| JUnitParser1.ReportPreamble | junit_parser1.py:51-73 | title, summary heading and table, spacer and "Test Cases" heading; no contract of its own; its promises are stated by SummaryTableReadsBack and CreateDocxReport |
| JUnitParser1.ResultRuns | junit_parser1.py:74-91 | the runs of one result's paragraph; no contract of its own; its promises are stated by ResultRunsShape and ResultParagraph |
| JUnitParser1.OutcomeColor | junit_parser1.py:79-91 | red for failed, orange for error, gray for skipped; no contract of its own; its promises are stated by ResultRunsShape |
| TableAnalyzer.RgbToHex | table_analyzer.py:31-47 | None gives None; any colour gives text starting with "#" |
| TableAnalyzer.RgbColorToComponents | table_analyzer.py:51-66 | None gives no components; a triple is returned as is; a packed integer gives three components in 0..255 |
| TableAnalyzer.PackedComponentsRoundTrip | table_analyzer.py:62-66 | for 0 <= x < 2^24, r*65536 + g*256 + b == x |
| TableAnalyzer.ComponentsPackRoundTrip | table_analyzer.py:62-66 | byte components packed into an integer split back into the same components |
| TableAnalyzer.SplitComponents | table_analyzer.py:63-65 | the shifts and masks are division and remainder by 256 |
| TableAnalyzer.ByteHex | table_analyzer.py:40 | `{x:02X}` of a byte is two uppercase hex digits of value x |
| TableAnalyzer.TripleHex | table_analyzer.py:37-40 | a byte triple gives "#" and two uppercase hex digits per component, seven characters in all |
| TableAnalyzer.PackedHex | table_analyzer.py:41-43 | an integer below 2^24 gives "#" and six uppercase hex digits of its value |
| TableAnalyzer.SixDigits | table_analyzer.py:43 | the six digits of a packed colour are the hex pairs of its three bytes |
| TableAnalyzer.HexPathsAgree | table_analyzer.py:37-47 | a packed colour and the triple of its components give the same hex text |
| TableAnalyzer.LeadingSpaces | table_analyzer.py:187 | counts exactly the whitespace `strip` removes at the front |
| TableAnalyzer.TrailingSpaces | table_analyzer.py:187 | counts exactly the whitespace `strip` removes at the back |
| TableAnalyzer.Strip | table_analyzer.py:187 | the stripped text neither starts nor ends with whitespace |
| TableAnalyzer.StripRemovesSpaceOnly | table_analyzer.py:187 | the stripped text is a slice of the cell text, and everything cut off is whitespace |
| TableAnalyzer.CheckMergedCells | table_analyzer.py:166-210 | the nested loops over rows and cells build exactly the grid's merge entries |
| TableAnalyzer.CheckCell | table_analyzer.py:173-208 | one cell adds exactly its own entries |
| TableAnalyzer.CellEntriesAt | table_analyzer.py:173-208 | a cell adds at most two entries, all at its own row and column |
| TableAnalyzer.ColSpanRecorded | table_analyzer.py:179-188 | a column-span entry is recorded iff `w:gridSpan` is present and its `w:val` (default "1") parses to a span > 1, with the stripped cell text |
| TableAnalyzer.RowSpanStartRecorded | table_analyzer.py:191-200 | a row-span start iff `w:vMerge` has val "restart" and the grid span did not raise |
| TableAnalyzer.RowSpanContinueRecorded | table_analyzer.py:201-206 | a continuation iff `w:vMerge` has no val and the grid span did not raise; any other val records nothing |
| TableAnalyzer.RowMembership | table_analyzer.py:171-208 | the entries of a row are exactly the entries of its cells, at their own columns |
| TableAnalyzer.GridMembership | table_analyzer.py:170-208 | the entries of the table are exactly the entries of its cells |
| TableAnalyzer.RowEntriesOrdered | table_analyzer.py:171 | a row's entries come out in column order |
| TableAnalyzer.GridEntriesOrdered | table_analyzer.py:170-171 | the table's entries come out in row-major order |
| TableAnalyzer.MergeCode | table_analyzer.py:421-428 | the merge code is empty iff there are no merge entries |
| TableAnalyzer.AppendMergeCode | table_analyzer.py:421-428 | appends the merge code of the table's detected entries |
| TableAnalyzer.WriteMergeCode | table_analyzer.py:422-428 | the loop appends the header and one merge call per column span, in order |
| TableAnalyzer.MergeLinesSpansOnly | table_analyzer.py:425 | only column-span entries produce merge calls |
| TableAnalyzer.HeaderWithoutCalls | table_analyzer.py:422-425 | entries with no column span still produce the "# Merge cells" header |
| TableAnalyzer.MergesJoinTwoOrMore | table_analyzer.py:426-428 | each merge spans columns col..col+span-1, exactly span >= 2 cells |
| TableAnalyzer.TwelvePointSize | table_analyzer.py:82-83 | as written, a 12-point size reads as 10972800 "points"; converted from its units it reads 12 |
| TableAnalyzer.HalfPointSizes | table_analyzer.py:82-83 | whole and half point sizes read back as the same size once converted from their units |
| TableAnalyzer.GetFontInfo | table_analyzer.py:70-109 | fills in the font report property by property and ends with exactly `FontInfoOf` of the run |
| TableAnalyzer.FontInfoDefaults | table_analyzer.py:74-95 | name, size and colour fall back to their default texts exactly when unset or falsy |
| TableAnalyzer.FlagsDefaultOff | table_analyzer.py:98-107 | each style flag is on iff the run sets it to True; unset flags are False |
| TableAnalyzer.PackedFontColor | table_analyzer.py:89-92 | a set packed colour is reported as seven-character hex text of its value and components that pack back to it |
| TableAnalyzer.StyleFlags | table_analyzer.py:219-235 | eight flags, one per style |
| TableAnalyzer.Rank | table_analyzer.py:219-235 | the position of each style in the fixed order |
| TableAnalyzer.FontStyles | table_analyzer.py:219-235 | the appends build exactly `StylesOf`, whose properties the lemmas below state |
| TableAnalyzer.StylesOfSelected | table_analyzer.py:219-235 | the style list is the styles selected by the flags in the fixed order |
| TableAnalyzer.SelectedMember | table_analyzer.py:219-235 | a style is selected iff its flag is on |
| TableAnalyzer.SelectedAscending | table_analyzer.py:219-235 | selected styles keep the fixed order without repeats |
| TableAnalyzer.StyleFlag | table_analyzer.py:219-235 | a style is on iff its flag at its rank is on |
| TableAnalyzer.StylesOfMember | table_analyzer.py:219-235 | a style is listed iff its flag is on |
| TableAnalyzer.StylesOfAscending | table_analyzer.py:219-235 | the list follows Bold, Italic, Underlined, Small Caps, All Caps, Strikethrough, Subscript, Superscript, without repeats |
| TableAnalyzer.AscendingUnique | table_analyzer.py:219-235 | two lists in the fixed order with the same members are equal |
| TableAnalyzer.StylesOfUnique | table_analyzer.py:219-235 | the style list is the only list in the fixed order that holds exactly the styles that are on |
| TableAnalyzer.StylesOfEmpty | table_analyzer.py:219-237 | the list is empty iff no flag is on |
| TableAnalyzer.RunStyleFlag | table_analyzer.py:98-107 | a style is on in the report iff the run sets it to True |
| TableAnalyzer.RunStyles | table_analyzer.py:98-235 | the styles listed for a run are exactly those it sets to True; none are listed iff it sets none |
| TableAnalyzer.Join | table_analyzer.py:238 | a joined list starts with its first part |
| TableAnalyzer.JoinSnoc | table_analyzer.py:238 | one part joins to itself; joining one more part appends the separator and that part |
| TableAnalyzer.StyleNames | table_analyzer.py:220-235 | one name per style, in order |
| TableAnalyzer.StylesLineEmpty | table_analyzer.py:237-240 | the styles line reads "None" iff the list is empty |
| TableAnalyzer.StylesLineNone | table_analyzer.py:212-240 | the styles line of a font reads "None" iff no style is on |
| TableAnalyzer.BackgroundColor | table_analyzer.py:111-124 | a background colour is "#" followed by text |
| TableAnalyzer.BackgroundSpec | table_analyzer.py:113-122 | a colour is returned iff the cell has `w:shd` with a fill that is neither empty nor "auto", and it is "#" plus that fill |
| TableAnalyzer.ShadedRoundTrip | table_analyzer.py:116-122 | a cell shaded with a fill reads back "#fill", or nothing for an empty or "auto" fill |
| TableAnalyzer.BorderOf | table_analyzer.py:138-142 | style defaults to "none", size to "0", colour to "auto"; present attributes are taken as is |
| TableAnalyzer.SideBordersAt | table_analyzer.py:135-142 | a side is recorded iff it is one of the sides read and its element is present, with that element's settings |
| TableAnalyzer.BordersElement | table_analyzer.py:130-134 | the borders element is the `w:tcBorders` child of the cell's properties |
| TableAnalyzer.GetCellBorders | table_analyzer.py:126-145 | the loop over top, left, bottom, right builds exactly `CellBorders` of the cell |
| TableAnalyzer.CellBordersPresent | table_analyzer.py:128-143 | the result is None unless the cell has `w:tcBorders` with at least one of the four sides |
| TableAnalyzer.CellBordersAt | table_analyzer.py:135-143 | each of the four sides is present iff its element is, with its settings and their defaults |
| TableAnalyzer.IsSpace | table_analyzer.py:187 | Python's `str.isspace`; no contract of its own; its promises are stated by Strip and StripRemovesSpaceOnly |
| TableAnalyzer.VMergeEntries | table_analyzer.py:190-206 | what `w:vMerge` records; no contract of its own; its promises are stated by RowSpanStartRecorded and RowSpanContinueRecorded |
| TableAnalyzer.GridSpanEntries | table_analyzer.py:179-188 | what `w:gridSpan` records, None when `int()` raises; no contract of its own; its promises are stated by ColSpanRecorded |
| TableAnalyzer.PropertiesEntries | table_analyzer.py:173-208 | the records of one cell's properties; no contract of its own; its promises are stated by ColSpanRecorded, RowSpanStartRecorded, RowSpanContinueRecorded and CellEntriesAt |
| TableAnalyzer.CellEntries | table_analyzer.py:173-208 | the records of one cell; no contract of its own; its promises are stated by CellEntriesAt and the three *Recorded rows |
| TableAnalyzer.RowEntries | table_analyzer.py:171-208 | the records of a row, left to right; no contract of its own; its promises are stated by RowMembership and RowEntriesOrdered |
| TableAnalyzer.GridEntries | table_analyzer.py:170-210 | the records of a table, row by row; no contract of its own; its promises are stated by GridMembership, GridEntriesOrdered and CheckMergedCells |
| TableAnalyzer.MergeEndColumn | table_analyzer.py:427 | `col + span - 1`; no contract of its own; its promises are stated by MergesJoinTwoOrMore |
| TableAnalyzer.MergeLine | table_analyzer.py:426-428 | the merge call of one span record; no contract of its own; its promises are stated by MergesJoinTwoOrMore and WriteMergeCode |
| TableAnalyzer.MergeLines | table_analyzer.py:424-428 | the merge calls of the span records in order; no contract of its own; its promises are stated by MergeLinesSpansOnly, MergeCode and WriteMergeCode |
| TableAnalyzer.SizePointsAsWritten | table_analyzer.py:82-83 | `inches_to_points` applied to an EMU length, as written; no contract of its own; its promises are stated by TwelvePointSize |
| TableAnalyzer.EmuToPoints | table_analyzer.py:82-83 | the corrected conversion, EMU / 12700; no contract of its own; its promises are stated by HalfPointSizes and TwelvePointSize |
| TableAnalyzer.ColorSet | table_analyzer.py:90 | Python's truth value of a run colour; no contract of its own; its promises are stated by FontInfoDefaults and PackedFontColor |
| TableAnalyzer.FontInfoOf | table_analyzer.py:70-109 | `get_font_info` with the corrected size; no contract of its own; its promises are stated by GetFontInfo, FontInfoDefaults, FlagsDefaultOff and PackedFontColor |
| TableAnalyzer.RunFlags | table_analyzer.py:98-107 | the eight on/off properties of a run in report order; no contract of its own; its promises are stated by FlagsDefaultOff and RunStyleFlag |
| TableAnalyzer.StyleName | table_analyzer.py:219-235 | the printed name of each style; no contract of its own; its promises are stated by StyleNames and StylesLineNone |
| TableAnalyzer.HasStyle | table_analyzer.py:219-235 | the report flag behind each style; no contract of its own; its promises are stated by StyleFlag and StylesOfMember |
| TableAnalyzer.StylesOf | table_analyzer.py:219-235 | the styles list of `print_font_details`; no contract of its own; its promises are stated by FontStyles, StylesOfSelected, StylesOfMember, StylesOfAscending, StylesOfUnique and StylesOfEmpty |
| TableAnalyzer.StylesLine | table_analyzer.py:237-240 | the `Font styles:` line; no contract of its own; its promises are stated by StylesLineEmpty and StylesLineNone |
| TableAnalyzer.WithSide | table_analyzer.py:136-142 | adds one side when its element exists; no contract of its own; its promises are stated by SideBordersAt |
| TableAnalyzer.SideBorders | table_analyzer.py:135-142 | the loop over the four sides; no contract of its own; its promises are stated by SideBordersAt and GetCellBorders |
| TableAnalyzer.CellBorders | table_analyzer.py:126-145 | `get_cell_borders`; no contract of its own; its promises are stated by CellBordersPresent, CellBordersAt and GetCellBorders |

## Findings

| source | as written | input that shows it | evidently intended | confidence | as-written member | corrected member |
|---|---|---|---|---|---|---|
| table_analyzer.py:82-83 | `inches_to_points` multiplies the run's font size by 72, but python-docx holds the size in English Metric Units, so the "points" reported are EMU times 72 | a 12-point run (size 152400 EMU) is reported as 10972800 points | the size in points, EMU / 12700 | not executed | TableAnalyzer.SizePointsAsWritten, shown by TableAnalyzer.TwelvePointSize | TableAnalyzer.EmuToPoints, proved by TableAnalyzer.HalfPointSizes and used by TableAnalyzer.FontInfoOf |

## Left out

- Reading and parsing the XML file (`ET.parse`) and its `ParseError`: the model starts from the parsed tree.
- python-docx itself: fonts, sizes, alignment, spacing, italics, style definitions and saving the document. The report is a sequence of blocks carrying text, weight, colour and paragraph or table style.
- Floating-point values: durations stay as their attribute text. The `:.2f`/`:.3f` formatting, the "Total Execution Time" row and `float()` failures are not modelled. The success rate is a rational number, and its `:.1f` display is a `Figure` run whose digits are not modelled.
- `datetime.now()`: the timestamp text is a parameter of `AddTitle`.
- The command line (argparse, file checks, `mkdir`), `print` output and tracebacks.
- table.py is not part of this model: it only calls python-docx with fixed sample data.
- Numbers.ParseInt: only optionally signed ASCII decimal text is accepted. Python's `int()` also accepts surrounding whitespace, `_` separators and non-ASCII digits.
- TableAnalyzer.RgbToHex: the `except` branch returning `str(rgb_color)` and the duck-typed checks on foreign objects are not modelled; a colour is a triple or an integer.
- TableAnalyzer.TripleHex: states the seven-character form only for components in 0..255; wider components give longer text, as in Python.
- TableAnalyzer.FontInfoOf: uses the corrected point size of the finding above. It does not model the `round(..., 1)` of `inches_to_points` or the size shown as text.
- TableAnalyzer.RunFont: underline is a boolean. python-docx also has enumerated underline styles.
- TableAnalyzer.CellBorders: the result is a map from side to settings, so dictionary insertion order is not modelled.
- TableAnalyzer.CheckMergedCells: `row.cells` is taken as given. python-docx repeats a spanned cell once per grid column, and that is not modelled.
- The rest of table_analyzer.py: `analyze_text_formatting`, `analyze_table`, `analyze_document` and the replication code other than the merge calls. The font, size and colour lines of `print_font_details` are also left out; only its styles line is modelled.
- JUnitReport2.SummaryRows: the seventh row, the total execution time, is a float formatted to two decimals and is left out; the six count rows are modelled.
