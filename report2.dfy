/**
 * The Word report of `junit_parser2.py` (`WordReportGenerator`): a title, an
 * executive summary over all suites, one section per suite and a footer. The
 * generator appends blocks to its document; each `_add_*` step is specified by
 * the function giving the blocks it appends.
 */
module JUnitReport2 {
  import opened Common
  import opened Numbers
  import opened Seqs
  import opened JUnit
  import opened JUnitParser2
  import opened Docx

  // ---------------------------------------------------------------------------
  // Totals and success rate

  /** A sum over suites, in list order. */
  function Sum(suites: seq<TestSuite>, f: TestSuite -> int): int
  {
    if suites == [] then 0 else Sum(suites[..|suites| - 1], f) + f(suites[|suites| - 1])
  }

  function SuiteTests(s: TestSuite): int { s.tests }
  function SuiteFailures(s: TestSuite): int { s.failures }
  function SuiteErrors(s: TestSuite): int { s.errors }
  function SuiteSkipped(s: TestSuite): int { s.skipped }

  /** The passed count a suite line shows: its declared counts, not its cases. */
  function SuitePassed(s: TestSuite): int { s.tests - s.failures - s.errors - s.skipped }

  /** The totals of the executive summary. */
  datatype Totals = Totals(suites: nat, tests: int, failures: int, errors: int, skipped: int)

  function TotalsOf(suites: seq<TestSuite>): Totals
  {
    Totals(|suites|, Sum(suites, SuiteTests), Sum(suites, SuiteFailures), Sum(suites, SuiteErrors), Sum(suites, SuiteSkipped))
  }

  function TotalPassed(t: Totals): int { t.tests - t.failures - t.errors - t.skipped }

  /** The overall passed count is the sum of the per-suite passed counts. */
  lemma {:induction false} TotalPassedIsSumOfSuites(suites: seq<TestSuite>)
    ensures TotalPassed(TotalsOf(suites)) == Sum(suites, SuitePassed)
  {
    if suites != [] {
      TotalPassedIsSumOfSuites(suites[..|suites| - 1]);
    }
  }

  /** A suite whose declared counts are consistent: none negative, outcomes within the total. */
  predicate Consistent(s: TestSuite)
  {
    0 <= s.failures && 0 <= s.errors && 0 <= s.skipped && s.failures + s.errors + s.skipped <= s.tests
  }

  /** With consistent suites, the overall passed count lies between 0 and the total test count. */
  lemma {:induction false} TotalPassedBounds(suites: seq<TestSuite>)
    requires forall i :: 0 <= i < |suites| ==> Consistent(suites[i])
    ensures 0 <= TotalPassed(TotalsOf(suites)) <= TotalsOf(suites).tests
  {
    if suites != [] {
      TotalPassedBounds(suites[..|suites| - 1]);
      assert Consistent(suites[|suites| - 1]);
    }
  }

  /** `success_rate`: passed over total as a percentage, 0 when there are no tests. */
  function RatePercent(passed: int, total: int): real
  {
    if total > 0 then passed as real / total as real * 100.0 else 0.0
  }

  /** The colour bands of the success-rate line. */
  datatype Tier = High | Middle | Low

  function TierOfRate(rate: real): Tier
  {
    if rate >= 95.0 then High else if rate >= 80.0 then Middle else Low
  }

  function TierColor(t: Tier): Rgb
  {
    match t
    case High => Green
    case Middle => Orange
    case Low => Red
  }

  lemma RateAtLeast(passed: int, total: int, k: int)
    requires total > 0
    ensures RatePercent(passed, total) >= k as real <==> passed * 100 >= k * total
  {
    var q := passed as real / total as real;
    assert q * total as real == passed as real;
    assert RatePercent(passed, total) * total as real == passed as real * 100.0;
  }

  lemma RateAtMost(passed: int, total: int, k: int)
    requires total > 0
    ensures RatePercent(passed, total) <= k as real <==> passed * 100 <= k * total
  {
    var q := passed as real / total as real;
    assert q * total as real == passed as real;
    assert RatePercent(passed, total) * total as real == passed as real * 100.0;
  }

  /** The colour band decided on the counts alone, without division. */
  lemma TierByCounts(passed: int, total: int)
    ensures TierOfRate(RatePercent(passed, total)) ==
      if total > 0 && passed * 100 >= 95 * total then High
      else if total > 0 && passed * 100 >= 80 * total then Middle
      else Low
  {
    if total > 0 {
      RateAtLeast(passed, total, 95);
      RateAtLeast(passed, total, 80);
    }
  }

  /** With consistent counts the rate is a percentage. */
  lemma RateBounds(passed: int, total: int)
    requires 0 <= passed <= total
    ensures 0.0 <= RatePercent(passed, total) <= 100.0
  {
    if total > 0 {
      RateAtLeast(passed, total, 0);
      RateAtMost(passed, total, 100);
    }
  }

  // ---------------------------------------------------------------------------
  // Blocks appended by each step

  /** `_add_title`; `generatedOn` is the formatted `datetime.now()`. */
  function TitleBlocks(generatedOn: string): seq<Block>
  {
    [TextParagraph(Some("Custom Title"), "Test Execution Report"),
     Paragraph(None, [Plain("Generated on: " + generatedOn)]),
     Paragraph(None, [])]
  }

  function LabelRow(caption: string, value: string): seq<Cell>
  {
    [Cell(caption, true, None), Cell(value, false, None)]
  }

  /** The "Passed" row: total tests less failures, errors and skips. */
  function PassedRow(t: Totals): seq<Cell>
  {
    LabelRow("Passed", ShowInt(TotalPassed(t)))
  }

  /** The caption/value rows of the summary table (the execution-time row is not modelled). */
  function SummaryRows(t: Totals): (rows: seq<seq<Cell>>)
    ensures |rows| == 6
    ensures forall i :: 0 <= i < 6 ==> |rows[i]| == 2 && rows[i][0].bold && !rows[i][1].bold
    ensures rows[2] == PassedRow(t)
  {
    [LabelRow("Total Test Suites", ShowInt(t.suites)),
     LabelRow("Total Tests", ShowInt(t.tests)),
     PassedRow(t),
     LabelRow("Failed", ShowInt(t.failures)),
     LabelRow("Errors", ShowInt(t.errors)),
     LabelRow("Skipped", ShowInt(t.skipped))]
  }

  /** A table row whose caption is `caption` and whose value text reads back as `n`. */
  predicate RowReads(row: seq<Cell>, caption: string, n: int)
  {
    |row| == 2 && row[0].text == caption && ParseInt(row[1].text) == Some(n)
  }

  lemma LabelRowReads(caption: string, n: int)
    ensures RowReads(LabelRow(caption, ShowInt(n)), caption, n)
  {
    ParseShowInt(n);
  }

  /** The bold success-rate run, coloured by its band. */
  function SuccessRun(suites: seq<TestSuite>): Run
  {
    var t := TotalsOf(suites);
    var rate := RatePercent(TotalPassed(t), t.tests);
    Figure("Success Rate: ", rate, 1, "%", true, Some(TierColor(TierOfRate(rate))))
  }

  /** `_add_executive_summary`. */
  function ExecutiveSummaryBlocks(suites: seq<TestSuite>): seq<Block>
  {
    [TextParagraph(Some("Custom Heading"), "Executive Summary"),
     Table(Some("Table Grid"), SummaryRows(TotalsOf(suites))),
     Paragraph(None, [SuccessRun(suites)]),
     Paragraph(None, [])]
  }

  /** Each row of the summary table reads back as its caption and the matching total. */
  lemma SummaryRowsReadBack(t: Totals)
    ensures var rows := SummaryRows(t);
      && RowReads(rows[0], "Total Test Suites", t.suites)
      && RowReads(rows[1], "Total Tests", t.tests)
      && RowReads(rows[2], "Passed", TotalPassed(t))
      && RowReads(rows[3], "Failed", t.failures)
      && RowReads(rows[4], "Errors", t.errors)
      && RowReads(rows[5], "Skipped", t.skipped)
  {
    LabelRowReads("Total Test Suites", t.suites);
    LabelRowReads("Total Tests", t.tests);
    LabelRowReads("Passed", TotalPassed(t));
    LabelRowReads("Failed", t.failures);
    LabelRowReads("Errors", t.errors);
    LabelRowReads("Skipped", t.skipped);
  }

  /**
   * Over a list of suites, the summary table reads back as the number of
   * suites and the sums over suites of tests, passed (each suite's own passed
   * count), failures, errors and skips.
   */
  lemma ExecutiveSummaryTable(suites: seq<TestSuite>)
    ensures var rows := SummaryRows(TotalsOf(suites));
      && RowReads(rows[0], "Total Test Suites", |suites|)
      && RowReads(rows[1], "Total Tests", Sum(suites, SuiteTests))
      && RowReads(rows[2], "Passed", Sum(suites, SuitePassed))
      && RowReads(rows[3], "Failed", Sum(suites, SuiteFailures))
      && RowReads(rows[4], "Errors", Sum(suites, SuiteErrors))
      && RowReads(rows[5], "Skipped", Sum(suites, SuiteSkipped))
  {
    SummaryRowsReadBack(TotalsOf(suites));
    TotalPassedIsSumOfSuites(suites);
  }

  /**
   * The success rate is green from 95%, orange from 80%, red below, and red
   * when there are no tests.
   */
  lemma SuccessRateColor(suites: seq<TestSuite>)
    ensures var t := TotalsOf(suites);
      var p := TotalPassed(t);
      var c := SuccessRun(suites).color;
      (c == Some(Green) <==> t.tests > 0 && p * 100 >= 95 * t.tests) &&
      (c == Some(Orange) <==> t.tests > 0 && 80 * t.tests <= p * 100 < 95 * t.tests) &&
      (c == Some(Red) <==> t.tests <= 0 || p * 100 < 80 * t.tests)
  {
    var t := TotalsOf(suites);
    TierByCounts(TotalPassed(t), t.tests);
  }

  /** An f-string clause: the caption followed by the count and a separator. */
  function Clause(caption: string, n: int, color: Rgb): Run
  {
    Run(caption + ShowInt(n) + " | ", false, Some(color))
  }

  /** The clause for a count, present only when the count is positive. */
  function OptionalClause(caption: string, n: int, color: Rgb): seq<Run>
  {
    if n > 0 then [Clause(caption, n, color)] else []
  }

  /** The first run of a suite line: the declared test count. */
  function TestsRun(s: TestSuite): Run
  {
    Plain("Tests: " + ShowInt(s.tests) + " | ")
  }

  /** The last run of a suite line: the suite's time attribute. */
  function TimeRun(s: TestSuite): Run
  {
    Plain("Time: " + s.time + "s")
  }

  /** The runs of a suite's summary line. */
  function SuiteLineRuns(s: TestSuite): seq<Run>
  {
    [TestsRun(s), Clause("Passed: ", SuitePassed(s), Green)]
    + OptionalClause("Failed: ", s.failures, Red)
    + OptionalClause("Errors: ", s.errors, Red)
    + OptionalClause("Skipped: ", s.skipped, Gray)
    + [TimeRun(s)]
  }

  /** Some run of `runs` begins with `caption`. */
  predicate HasClause(runs: seq<Run>, caption: string)
  {
    exists r :: r in runs && r.Run? && StartsWith(r.text, caption)
  }

  function Positive(n: int): nat { if n > 0 then 1 else 0 }

  lemma ClauseStarts(caption: string, n: int, color: Rgb)
    ensures StartsWith(Clause(caption, n, color).text, caption)
  {
    assert (caption + ShowInt(n) + " | ")[..|caption|] == caption;
  }

  /** An optional clause is there exactly when its count is positive, and it starts with its own caption only. */
  lemma OptionalClauseOnly(caption: string, n: int, color: Rgb, other: string)
    requires caption != [] && other != [] && caption[0] != other[0]
    ensures |OptionalClause(caption, n, color)| == Positive(n)
    ensures forall r :: r in OptionalClause(caption, n, color) ==> r.Run? && !StartsWith(r.text, other)
    ensures n > 0 ==> HasClause(OptionalClause(caption, n, color), caption)
  {
    ClauseStarts(caption, n, color);
    if n > 0 && StartsWith(Clause(caption, n, color).text, other) {
      StartsWithHead(Clause(caption, n, color).text, other);
      StartsWithHead(Clause(caption, n, color).text, caption);
    }
  }

  /** The runs that are always there start with none of the optional captions. */
  lemma FixedRunsNoClause(s: TestSuite, caption: string)
    requires caption != [] && caption[0] in "FES"
    ensures !StartsWith(TestsRun(s).text, caption)
    ensures !StartsWith(Clause("Passed: ", SuitePassed(s), Green).text, caption)
    ensures !StartsWith(TimeRun(s).text, caption)
  {
    if StartsWith(TestsRun(s).text, caption) {
      StartsWithHead(TestsRun(s).text, caption);
    }
    if StartsWith(Clause("Passed: ", SuitePassed(s), Green).text, caption) {
      StartsWithHead(Clause("Passed: ", SuitePassed(s), Green).text, caption);
    }
    if StartsWith(TimeRun(s).text, caption) {
      StartsWithHead(TimeRun(s).text, caption);
    }
  }

  lemma SuiteLineMembers(s: TestSuite)
    ensures var runs := SuiteLineRuns(s);
      |runs| == 3 + |OptionalClause("Failed: ", s.failures, Red)| + |OptionalClause("Errors: ", s.errors, Red)|
        + |OptionalClause("Skipped: ", s.skipped, Gray)| &&
      runs[1] == Clause("Passed: ", SuitePassed(s), Green) &&
      (forall r :: r in runs ==>
        r == TestsRun(s) || r == Clause("Passed: ", SuitePassed(s), Green) || r == TimeRun(s) ||
        r in OptionalClause("Failed: ", s.failures, Red) || r in OptionalClause("Errors: ", s.errors, Red) ||
        r in OptionalClause("Skipped: ", s.skipped, Gray)) &&
      (forall r :: (r in OptionalClause("Failed: ", s.failures, Red) || r in OptionalClause("Errors: ", s.errors, Red) ||
        r in OptionalClause("Skipped: ", s.skipped, Gray)) ==> r in runs)
  {
  }

  /** How one optional clause shows in the line, given what the other runs start with. */
  lemma LineClauseIff(runs: seq<Run>, own: seq<Run>, caption: string, n: int)
    requires forall r :: r in own ==> r in runs
    requires n > 0 ==> HasClause(own, caption)
    requires forall r :: r in runs && r.Run? && StartsWith(r.text, caption) ==> r in own
    requires own != [] ==> n > 0
    ensures HasClause(runs, caption) <==> n > 0
  {
    if HasClause(runs, caption) {
      var r :| r in runs && r.Run? && StartsWith(r.text, caption);
      assert r in own;
    }
  }

  /**
   * The failed, errors and skipped clauses each appear exactly when their count
   * is positive; tests, passed (in green) and time always appear.
   */
  lemma SuiteLineClauses(s: TestSuite)
    ensures var runs := SuiteLineRuns(s);
      |runs| == 3 + Positive(s.failures) + Positive(s.errors) + Positive(s.skipped) &&
      runs[1] == Clause("Passed: ", SuitePassed(s), Green) &&
      (HasClause(runs, "Failed: ") <==> s.failures > 0) &&
      (HasClause(runs, "Errors: ") <==> s.errors > 0) &&
      (HasClause(runs, "Skipped: ") <==> s.skipped > 0)
  {
    var runs := SuiteLineRuns(s);
    var f := OptionalClause("Failed: ", s.failures, Red);
    var e := OptionalClause("Errors: ", s.errors, Red);
    var k := OptionalClause("Skipped: ", s.skipped, Gray);
    SuiteLineMembers(s);
    FixedRunsNoClause(s, "Failed: ");
    FixedRunsNoClause(s, "Errors: ");
    FixedRunsNoClause(s, "Skipped: ");
    OptionalClauseOnly("Failed: ", s.failures, Red, "Errors: ");
    OptionalClauseOnly("Failed: ", s.failures, Red, "Skipped: ");
    OptionalClauseOnly("Errors: ", s.errors, Red, "Failed: ");
    OptionalClauseOnly("Errors: ", s.errors, Red, "Skipped: ");
    OptionalClauseOnly("Skipped: ", s.skipped, Gray, "Failed: ");
    OptionalClauseOnly("Skipped: ", s.skipped, Gray, "Errors: ");
    LineClauseIff(runs, f, "Failed: ", s.failures);
    LineClauseIff(runs, e, "Errors: ", s.errors);
    LineClauseIff(runs, k, "Skipped: ", s.skipped);
  }

  /** A failed or errored case: the ones listed under "Failed/Error Tests:". */
  predicate IsFailing(tc: TestCase)
  {
    tc.status == Failed || tc.status == Error
  }

  /** `failed_tests`: the failing cases, in order. */
  function FailedTests(cases: seq<TestCase>): seq<TestCase>
  {
    Filter(IsFailing, cases)
  }

  /** The failing cases are exactly the failed and errored ones, each as often as it occurs, kept in their order. */
  lemma FailedTestsSelect(cases: seq<TestCase>)
    ensures forall tc :: tc in FailedTests(cases) <==> tc in cases && IsFailing(tc)
    ensures Subsequence(FailedTests(cases), cases)
    ensures forall tc :: multiset(FailedTests(cases))[tc] == if IsFailing(tc) then multiset(cases)[tc] else 0
  {
    FilterMembershipAll(IsFailing, cases);
    FilterIsSubsequence(IsFailing, cases);
    FilterCountAll(IsFailing, cases);
  }

  /** The details are cut to their first 500 characters and marked with "...". */
  function Truncate(details: string): (r: string)
    ensures |r| <= 503
    ensures |details| <= 500 ==> r == details
    ensures |details| > 500 ==> |r| == 503 && r[..500] == details[..500] && r[500..] == "..."
  {
    if |details| > 500 then details[..500] + "..." else details
  }

  /** Python's truth value of an optional string. */
  predicate Truthy(s: Option<string>)
  {
    s.Some? && s.value != ""
  }

  /** The bold red `classname.name` bullet naming a failing case. */
  function NameBullet(tc: TestCase): Block
  {
    Paragraph(Some("List Bullet 2"), [Run(tc.classname + "." + tc.name, true, Some(Red))])
  }

  /** The third-level bullets under a failing case: its message and its (truncated) details, when present. */
  function NoteBullets(tc: TestCase): seq<Block>
  {
    (if Truthy(tc.failureMessage)
     then [Paragraph(Some("List Bullet 3"), [Plain("Message: " + tc.failureMessage.value)])] else [])
    + (if Truthy(tc.failureDetails)
       then [Paragraph(Some("List Bullet 3"), [Plain("Details: " + Truncate(tc.failureDetails.value))])] else [])
  }

  /** `_add_failed_test_details`. */
  function FailedTestBlocks(tc: TestCase): seq<Block>
  {
    [NameBullet(tc)] + NoteBullets(tc)
  }

  /** The details of each failing case, in order. */
  function FailedDetailsBlocks(failed: seq<TestCase>): seq<Block>
  {
    if failed == [] then []
    else FailedDetailsBlocks(failed[..|failed| - 1]) + FailedTestBlocks(failed[|failed| - 1])
  }

  function StatusColor(s: Status): Rgb
  {
    match s
    case Passed => Green
    case Failed | Error => Red
    case Skipped => Gray
  }

  function HeaderRow(): seq<Cell>
  {
    [Cell("Test Name", true, None), Cell("Class", true, None), Cell("Status", true, None), Cell("Time (s)", true, None)]
  }

  function CaseRow(tc: TestCase): seq<Cell>
  {
    [Cell(tc.name, false, None), Cell(tc.classname, false, None),
     Cell(StatusUpper(tc.status), false, Some(StatusColor(tc.status))), Cell(tc.time, false, None)]
  }

  function CaseRows(cases: seq<TestCase>): seq<seq<Cell>>
  {
    seq(|cases|, i requires 0 <= i < |cases| => CaseRow(cases[i]))
  }

  /** `_add_test_case_summary_table`. */
  function SummaryTableBlocks(cases: seq<TestCase>): seq<Block>
  {
    [TextParagraph(None, "Test Cases Summary:"), Table(Some("Table Grid"), [HeaderRow()] + CaseRows(cases))]
  }

  /** The status mark opening a case's line. */
  function IconRun(s: Status): Run
  {
    match s
    case Passed => Run("\U{2713} ", false, Some(Green))
    case Failed | Error => Run("\U{2717} ", false, Some(Red))
    case Skipped => Run("- ", false, Some(Gray))
  }

  function CaseLine(tc: TestCase): Block
  {
    Paragraph(Some("List Bullet"), [IconRun(tc.status), Plain(tc.classname + "." + tc.name + " (" + tc.time + "s)")])
  }

  function CaseLines(cases: seq<TestCase>): seq<Block>
  {
    seq(|cases|, i requires 0 <= i < |cases| => CaseLine(cases[i]))
  }

  /** `_add_detailed_test_cases`: nothing at all for a suite without cases. */
  function DetailedCasesBlocks(cases: seq<TestCase>): seq<Block>
  {
    if cases == [] then [] else [TextParagraph(None, "Test Cases:")] + CaseLines(cases)
  }

  /** The "Failed/Error Tests:" part of a section, empty when nothing failed. */
  function FailuresPart(cases: seq<TestCase>): seq<Block>
  {
    var failed := FailedTests(cases);
    if failed != [] then [TextParagraph(Some("List Bullet"), "Failed/Error Tests:")] + FailedDetailsBlocks(failed) else []
  }

  /** The case listing of a section: a table above ten cases, a bullet list otherwise. */
  function CasesPart(cases: seq<TestCase>): seq<Block>
  {
    if |cases| > 10 then SummaryTableBlocks(cases) else DetailedCasesBlocks(cases)
  }

  /** The heading opening a section. */
  function SectionTitle(s: TestSuite): Block
  {
    TextParagraph(Some("Custom Heading"), "Test Suite: " + s.name)
  }

  /** Everything of a section after its heading. */
  function SectionBody(s: TestSuite): seq<Block>
  {
    [Paragraph(None, SuiteLineRuns(s))] + FailuresPart(s.testCases) + CasesPart(s.testCases) + [Paragraph(None, [])]
  }

  /** `_add_test_suite_section`. */
  function SuiteSectionBlocks(s: TestSuite): seq<Block>
  {
    [SectionTitle(s)] + SectionBody(s)
  }

  function SectionsBlocks(suites: seq<TestSuite>): seq<Block>
  {
    if suites == [] then [] else SectionsBlocks(suites[..|suites| - 1]) + SuiteSectionBlocks(suites[|suites| - 1])
  }

  /** `_add_footer`. */
  function FooterBlocks(): seq<Block>
  {
    [PageBreak, Paragraph(None, [Plain("End of Test Report")])]
  }

  /** The whole body `generate_report` writes. */
  function ReportBlocks(generatedOn: string, suites: seq<TestSuite>): seq<Block>
  {
    TitleBlocks(generatedOn) + ExecutiveSummaryBlocks(suites) + SectionsBlocks(suites) + FooterBlocks()
  }

  // ---------------------------------------------------------------------------
  // Properties of the report

  /** A block that is a paragraph whose style is one of `styles`. */
  predicate StyledAmong(b: Block, styles: set<string>)
  {
    b.Paragraph? && b.style.Some? && b.style.value in styles
  }

  const BulletLevels: set<string> := {"List Bullet 2", "List Bullet 3"}

  lemma NoteBulletsShape(tc: TestCase)
    ensures forall b :: b in NoteBullets(tc) ==> b.Paragraph? && b.style == Some("List Bullet 3")
  {
  }

  /** Every block describing failures is a paragraph of the second or third bullet level. */
  lemma {:induction false} FailedDetailsShape(failed: seq<TestCase>)
    ensures forall b :: b in FailedDetailsBlocks(failed) ==> StyledAmong(b, BulletLevels)
  {
    if failed != [] {
      var init := failed[..|failed| - 1];
      var tc := failed[|failed| - 1];
      FailedDetailsShape(init);
      NoteBulletsShape(tc);
      assert FailedDetailsBlocks(failed) == FailedDetailsBlocks(init) + ([NameBullet(tc)] + NoteBullets(tc));
    }
  }

  lemma FailedTestCount(tc: TestCase)
    ensures CountStyled(FailedTestBlocks(tc), "List Bullet 2") == 1
  {
    NoteBulletsShape(tc);
    NoneStyled(NoteBullets(tc), "List Bullet 2");
    CountStyledAppend([NameBullet(tc)], NoteBullets(tc), "List Bullet 2");
    assert [NameBullet(tc)][..0] == [];
  }

  /** Each failing case gets exactly one second-level bullet, its name. */
  lemma {:induction false} FailedDetailsCount(failed: seq<TestCase>)
    ensures CountStyled(FailedDetailsBlocks(failed), "List Bullet 2") == |failed|
  {
    if failed != [] {
      var init := failed[..|failed| - 1];
      var tc := failed[|failed| - 1];
      FailedDetailsCount(init);
      FailedTestCount(tc);
      CountStyledAppend(FailedDetailsBlocks(init), FailedTestBlocks(tc), "List Bullet 2");
    }
  }

  lemma CaseLinesShape(cases: seq<TestCase>)
    ensures forall b :: b in CaseLines(cases) ==> b.Paragraph? && b.style == Some("List Bullet")
  {
    forall b | b in CaseLines(cases) ensures b.Paragraph? && b.style == Some("List Bullet") {
      var i :| 0 <= i < |cases| && CaseLines(cases)[i] == b;
    }
  }

  /** The failures part of a section is made of bullet paragraphs only. */
  lemma FailuresPartShape(cases: seq<TestCase>)
    ensures forall b :: b in FailuresPart(cases) ==> b.Paragraph? && !IsSectionHeading(b)
  {
    FailedDetailsShape(FailedTests(cases));
  }

  /** The case listing holds no section heading, and only paragraphs when it is a bullet list. */
  lemma CasesPartShape(cases: seq<TestCase>)
    ensures forall b :: b in CasesPart(cases) ==> !IsSectionHeading(b)
    ensures |cases| <= 10 ==> forall b :: b in CasesPart(cases) ==> b.Paragraph?
  {
    CaseLinesShape(cases);
  }

  lemma InFour<T>(x: T, a: seq<T>, b: seq<T>, c: seq<T>, d: seq<T>)
    requires x in a + b + c + d
    ensures x in a || x in b || x in c || x in d
  {
  }

  /** Apart from the table of a large suite, every block of a section body is a paragraph, and none is a section heading. */
  lemma SectionShape(s: TestSuite)
    ensures forall b :: b in SectionBody(s) ==> !IsSectionHeading(b)
    ensures |s.testCases| <= 10 ==> forall b :: b in SectionBody(s) ==> b.Paragraph?
  {
    var cases := s.testCases;
    FailuresPartShape(cases);
    CasesPartShape(cases);
    forall b | b in SectionBody(s)
      ensures !IsSectionHeading(b) && (|cases| <= 10 ==> b.Paragraph?)
    {
      InFour(b, [Paragraph(None, SuiteLineRuns(s))], FailuresPart(cases), CasesPart(cases), [Paragraph(None, [])]);
    }
  }

  lemma SingletonHeadings(b: Block)
    ensures SectionHeadings([b]) == if IsSectionHeading(b) then [FirstText(b)] else []
  {
    assert [b][..0] == [];
  }

  lemma BodyHeadings(s: TestSuite)
    ensures SectionHeadings(SectionBody(s)) == []
  {
    SectionShape(s);
    NoSectionHeadings(SectionBody(s));
  }

  /** Each section contributes exactly its own heading. */
  lemma SectionHeadingOfSuite(s: TestSuite)
    ensures SectionHeadings(SuiteSectionBlocks(s)) == ["Test Suite: " + s.name]
  {
    BodyHeadings(s);
    SectionHeadingsAppend([SectionTitle(s)], SectionBody(s));
    SingletonHeadings(SectionTitle(s));
  }

  /** The titles the sections of `suites` carry, in order. */
  function SuiteTitles(suites: seq<TestSuite>): (r: seq<string>)
    ensures |r| == |suites|
    ensures forall i :: 0 <= i < |suites| ==> r[i] == "Test Suite: " + suites[i].name
  {
    if suites == [] then [] else SuiteTitles(suites[..|suites| - 1]) + ["Test Suite: " + suites[|suites| - 1].name]
  }

  lemma {:induction false} SectionsHeadings(suites: seq<TestSuite>)
    ensures SectionHeadings(SectionsBlocks(suites)) == SuiteTitles(suites)
  {
    if suites != [] {
      var init := suites[..|suites| - 1];
      SectionsHeadings(init);
      SectionHeadingsAppend(SectionsBlocks(init), SuiteSectionBlocks(suites[|suites| - 1]));
      SectionHeadingOfSuite(suites[|suites| - 1]);
    }
  }

  /** Four blocks of which only the first is a section heading carry that heading alone. */
  lemma LeadingHeadingOnly(a: Block, b: Block, c: Block, d: Block)
    requires IsSectionHeading(a) && !IsSectionHeading(b) && !IsSectionHeading(c) && !IsSectionHeading(d)
    ensures SectionHeadings([a, b, c, d]) == [FirstText(a)]
  {
    NoSectionHeadings([b, c, d]);
    assert [a, b, c, d] == [a] + [b, c, d];
    SectionHeadingsAppend([a], [b, c, d]);
    SingletonHeadings(a);
  }

  /** The title page carries no section heading. */
  lemma TitleHeadings(generatedOn: string)
    ensures SectionHeadings(TitleBlocks(generatedOn)) == []
  {
    NoSectionHeadings(TitleBlocks(generatedOn));
  }

  /** The executive summary carries its own heading and no other. */
  lemma SummaryHeadings(suites: seq<TestSuite>)
    ensures SectionHeadings(ExecutiveSummaryBlocks(suites)) == ["Executive Summary"]
  {
    var table := Table(Some("Table Grid"), SummaryRows(TotalsOf(suites)));
    var rate := Paragraph(None, [SuccessRun(suites)]);
    LeadingHeadingOnly(TextParagraph(Some("Custom Heading"), "Executive Summary"), table, rate, Paragraph(None, []));
  }

  /** The footer carries no section heading. */
  lemma FooterHeadings()
    ensures SectionHeadings(FooterBlocks()) == []
  {
    NoSectionHeadings(FooterBlocks());
  }

  lemma HeadingsOfFour(a: seq<Block>, b: seq<Block>, c: seq<Block>, d: seq<Block>)
    ensures SectionHeadings(a + b + c + d) == SectionHeadings(a) + SectionHeadings(b) + SectionHeadings(c) + SectionHeadings(d)
  {
    SectionHeadingsAppend(a, b);
    SectionHeadingsAppend(a + b, c);
    SectionHeadingsAppend(a + b + c, d);
  }

  /**
   * The report's section titles, in order: the executive summary, then one
   * "Test Suite: <name>" per suite in the order the suites were parsed.
   */
  lemma ReportHeadings(generatedOn: string, suites: seq<TestSuite>)
    ensures SectionHeadings(ReportBlocks(generatedOn, suites)) == ["Executive Summary"] + SuiteTitles(suites)
  {
    TitleHeadings(generatedOn);
    SummaryHeadings(suites);
    FooterHeadings();
    SectionsHeadings(suites);
    HeadingsOfFour(TitleBlocks(generatedOn), ExecutiveSummaryBlocks(suites), SectionsBlocks(suites), FooterBlocks());
    EmptyAround(["Executive Summary"], SuiteTitles(suites));
  }

  /** A section holds a table exactly when its suite has more than ten cases. */
  lemma SectionTableIffMany(s: TestSuite)
    ensures (exists b :: b in SuiteSectionBlocks(s) && b.Table?) <==> |s.testCases| > 10
  {
    var cases := s.testCases;
    SectionShape(s);
    assert forall b :: b in SuiteSectionBlocks(s) ==> b == SectionTitle(s) || b in SectionBody(s);
    if |cases| > 10 {
      var t := CasesPart(cases)[1];
      assert t in CasesPart(cases);
      assert t in SectionBody(s);
      assert t in SuiteSectionBlocks(s);
    }
  }

  lemma CountStyledOfFour(a: seq<Block>, b: seq<Block>, c: seq<Block>, d: seq<Block>, style: string)
    ensures CountStyled(a + b + c + d, style) ==
      CountStyled(a, style) + CountStyled(b, style) + CountStyled(c, style) + CountStyled(d, style)
  {
    CountStyledAppend(a, b, style);
    CountStyledAppend(a + b, c, style);
    CountStyledAppend(a + b + c, d, style);
  }

  lemma FailuresPartCount(cases: seq<TestCase>)
    ensures CountStyled(FailuresPart(cases), "List Bullet 2") == |FailedTests(cases)|
  {
    var failed := FailedTests(cases);
    if failed != [] {
      FailedDetailsCount(failed);
      var lead := [TextParagraph(Some("List Bullet"), "Failed/Error Tests:")];
      NoneStyled(lead, "List Bullet 2");
      CountStyledAppend(lead, FailedDetailsBlocks(failed), "List Bullet 2");
    }
  }

  /** The section lists one second-level bullet per failed or errored case. */
  lemma SectionFailedCount(s: TestSuite)
    ensures CountStyled(SuiteSectionBlocks(s), "List Bullet 2") == |FailedTests(s.testCases)|
  {
    var cases := s.testCases;
    var line := [Paragraph(None, SuiteLineRuns(s))];
    CaseLinesShape(cases);
    NoneStyled([SectionTitle(s)], "List Bullet 2");
    NoneStyled(line, "List Bullet 2");
    NoneStyled(CasesPart(cases), "List Bullet 2");
    NoneStyled([Paragraph(None, [])], "List Bullet 2");
    FailuresPartCount(cases);
    CountStyledOfFour(line, FailuresPart(cases), CasesPart(cases), [Paragraph(None, [])], "List Bullet 2");
    CountStyledAppend([SectionTitle(s)], SectionBody(s), "List Bullet 2");
  }

  /** The "Failed/Error Tests:" part appears exactly when some case failed or errored. */
  lemma FailuresPartIffFailing(cases: seq<TestCase>)
    ensures FailuresPart(cases) != [] <==> exists i :: 0 <= i < |cases| && IsFailing(cases[i])
  {
    var failed := FailedTests(cases);
    FailedTestsSelect(cases);
    if failed != [] {
      assert failed[0] in failed;
    } else {
      forall i | 0 <= i < |cases| ensures !IsFailing(cases[i]) {
        assert cases[i] in cases;
      }
    }
  }

  /**
   * A suite with at most ten cases gets a "Test Cases:" line and then each case
   * on its own first-level bullet, in order: its coloured status mark, then
   * `classname.name (time s)`. A suite without cases gets no listing.
   */
  lemma SmallSuiteListing(cases: seq<TestCase>)
    requires |cases| <= 10
    ensures cases == [] ==> CasesPart(cases) == []
    ensures cases != [] ==>
      |CasesPart(cases)| == |cases| + 1 &&
      CasesPart(cases)[0] == TextParagraph(None, "Test Cases:") &&
      forall i :: 0 <= i < |cases| ==>
        var line := CasesPart(cases)[i + 1];
        line.style == Some("List Bullet") && |line.runs| == 2 &&
        line.runs[0].color == Some(StatusColor(cases[i].status)) &&
        line.runs[1].text == cases[i].classname + "." + cases[i].name + " (" + cases[i].time + "s)"
  {
    if cases != [] {
      forall i | 0 <= i < |cases|
        ensures IconRun(cases[i].status).color == Some(StatusColor(cases[i].status))
      {
      }
    }
  }

  /**
   * A suite with more than ten cases gets a "Test Cases Summary:" line and a
   * grid table: a bold header row, then one row per case, in order, giving its
   * name, class, upper-case status in its colour, and time.
   */
  lemma LargeSuiteTable(cases: seq<TestCase>)
    requires |cases| > 10
    ensures |CasesPart(cases)| == 2
    ensures CasesPart(cases)[0] == TextParagraph(None, "Test Cases Summary:")
    ensures CasesPart(cases)[1].Table? && CasesPart(cases)[1].style == Some("Table Grid")
    ensures var rows := CasesPart(cases)[1].rows;
      |rows| == |cases| + 1 &&
      (forall j :: 0 <= j < 4 ==> rows[0][j].bold) &&
      [rows[0][0].text, rows[0][1].text, rows[0][2].text, rows[0][3].text] == ["Test Name", "Class", "Status", "Time (s)"] &&
      forall i :: 0 <= i < |cases| ==>
        |rows[i + 1]| == 4 &&
        rows[i + 1][0].text == cases[i].name && rows[i + 1][1].text == cases[i].classname &&
        rows[i + 1][2].text == StatusUpper(cases[i].status) &&
        rows[i + 1][2].color == Some(StatusColor(cases[i].status)) &&
        rows[i + 1][3].text == cases[i].time
  {
  }

  lemma SumSingle(s: TestSuite, f: TestSuite -> int)
    ensures Sum([s], f) == f(s)
  {
    assert [s][..0] == [];
  }

  /** Worked example: suites of 5 and 3 tests make 8; 10 tests with 2 failed, 1 error, 1 skipped pass 6, in red. */
  lemma TotalsExample()
    ensures var a := TestSuite("A", 5, 0, 0, 0, "1.0", []);
      var b := TestSuite("B", 3, 0, 0, 0, "2.0", []);
      TotalsOf([a, b]).tests == 8
    ensures var s := TestSuite("S", 10, 2, 1, 1, "0", []);
      TotalPassed(TotalsOf([s])) == 6 && SuccessRun([s]).color == Some(Red)
  {
    var a := TestSuite("A", 5, 0, 0, 0, "1.0", []);
    var b := TestSuite("B", 3, 0, 0, 0, "2.0", []);
    SumSingle(a, SuiteTests);
    assert [a, b][..1] == [a];
    assert Sum([a, b], SuiteTests) == Sum([a], SuiteTests) + SuiteTests(b);
    var s := TestSuite("S", 10, 2, 1, 1, "0", []);
    SumSingle(s, SuiteTests);
    SumSingle(s, SuiteFailures);
    SumSingle(s, SuiteErrors);
    SumSingle(s, SuiteSkipped);
    TierByCounts(6, 10);
  }

  /** Declared counts are not checked against each other: the passed figure can be negative. */
  lemma NegativePassedPossible()
    ensures exists s: TestSuite :: SuitePassed(s) < 0 && SuiteLineRuns(s)[1] == Clause("Passed: ", -1, Green)
  {
    var s := TestSuite("S", 1, 2, 0, 0, "0", []);
    assert SuitePassed(s) == -1;
  }

  lemma SectionsBlocksSnoc(suites: seq<TestSuite>, i: nat)
    requires i < |suites|
    ensures SectionsBlocks(suites[..i + 1]) == SectionsBlocks(suites[..i]) + SuiteSectionBlocks(suites[i])
  {
    assert suites[..i + 1][..i] == suites[..i];
  }

  lemma FailedDetailsSnoc(failed: seq<TestCase>, i: nat)
    requires i < |failed|
    ensures FailedDetailsBlocks(failed[..i + 1]) == FailedDetailsBlocks(failed[..i]) + FailedTestBlocks(failed[i])
  {
    assert failed[..i + 1][..i] == failed[..i];
  }

  lemma AppendFour(o: seq<Block>, a: seq<Block>, b: seq<Block>, c: seq<Block>, d: seq<Block>)
    ensures o + a + b + c + d == o + (a + b + c + d)
  {
  }

  lemma AppendSection(o: seq<Block>, t: Block, l: Block, f: seq<Block>, c: seq<Block>, e: Block)
    ensures o + [t] + [l] + f + c + [e] == o + ([t] + ([l] + f + c + [e]))
  {
  }

  // ---------------------------------------------------------------------------
  // The generator

  /** The paragraph styles `_setup_styles` adds to the document. */
  const CustomStyles: set<string> := {"Custom Title", "Custom Heading", "Summary Box"}

  class ReportGenerator {
    /** The body of the document, in order. */
    var doc: seq<Block>
    /** The names of the styles the generator has added. */
    var styles: set<string>

    constructor()
      ensures doc == [] && styles == CustomStyles
    {
      doc := [];
      styles := {};
      new;
      SetupStyles();
    }

    /** Adds each custom style that is not yet there. */
    method SetupStyles()
      modifies this
      ensures styles == old(styles) + CustomStyles && doc == old(doc)
    {
      if "Custom Title" !in styles {
        styles := styles + {"Custom Title"};
      }
      if "Custom Heading" !in styles {
        styles := styles + {"Custom Heading"};
      }
      if "Summary Box" !in styles {
        styles := styles + {"Summary Box"};
      }
    }

    method GenerateReport(testSuites: seq<TestSuite>, generatedOn: string)
      modifies this
      ensures doc == old(doc) + ReportBlocks(generatedOn, testSuites) && styles == old(styles)
    {
      AddTitle(generatedOn);
      AddExecutiveSummary(testSuites);
      var start := doc;
      for i := 0 to |testSuites|
        invariant doc == start + SectionsBlocks(testSuites[..i])
        invariant styles == old(styles)
      {
        SectionsBlocksSnoc(testSuites, i);
        AddTestSuiteSection(testSuites[i]);
        AppendAssociates(start, SectionsBlocks(testSuites[..i]), SuiteSectionBlocks(testSuites[i]));
      }
      assert testSuites[..|testSuites|] == testSuites;
      AddFooter();
      AppendFour(old(doc), TitleBlocks(generatedOn), ExecutiveSummaryBlocks(testSuites), SectionsBlocks(testSuites), FooterBlocks());
    }

    method AddTitle(generatedOn: string)
      modifies this
      ensures doc == old(doc) + TitleBlocks(generatedOn) && styles == old(styles)
    {
      doc := doc + [TextParagraph(Some("Custom Title"), "Test Execution Report")];
      doc := doc + [Paragraph(None, [Plain("Generated on: " + generatedOn)])];
      doc := doc + [Paragraph(None, [])];
    }

    method AddExecutiveSummary(testSuites: seq<TestSuite>)
      modifies this
      ensures doc == old(doc) + ExecutiveSummaryBlocks(testSuites) && styles == old(styles)
    {
      doc := doc + [TextParagraph(Some("Custom Heading"), "Executive Summary")];
      doc := doc + [Table(Some("Table Grid"), SummaryRows(TotalsOf(testSuites)))];
      doc := doc + [Paragraph(None, [SuccessRun(testSuites)])];
      doc := doc + [Paragraph(None, [])];
    }

    method AddTestSuiteSection(suite: TestSuite)
      modifies this
      ensures doc == old(doc) + SuiteSectionBlocks(suite) && styles == old(styles)
    {
      doc := doc + [SectionTitle(suite)];
      doc := doc + [Paragraph(None, SuiteLineRuns(suite))];
      AddFailuresPart(suite.testCases);
      AddCasesPart(suite.testCases);
      doc := doc + [Paragraph(None, [])];
      AppendSection(old(doc), SectionTitle(suite), Paragraph(None, SuiteLineRuns(suite)),
        FailuresPart(suite.testCases), CasesPart(suite.testCases), Paragraph(None, []));
    }

    /** The "Failed/Error Tests:" branch of `_add_test_suite_section`. */
    method AddFailuresPart(testCases: seq<TestCase>)
      modifies this
      ensures doc == old(doc) + FailuresPart(testCases) && styles == old(styles)
    {
      var failedTests := FailedTests(testCases);
      if failedTests != [] {
        var heading := TextParagraph(Some("List Bullet"), "Failed/Error Tests:");
        doc := doc + [heading];
        AddFailedTests(failedTests);
        AppendAssociates(old(doc), [heading], FailedDetailsBlocks(failedTests));
      }
    }

    /** The choice of `_add_test_suite_section` between a table and a bullet list of the cases. */
    method AddCasesPart(testCases: seq<TestCase>)
      modifies this
      ensures doc == old(doc) + CasesPart(testCases) && styles == old(styles)
    {
      if |testCases| > 10 {
        AddTestCaseSummaryTable(testCases);
      } else {
        AddDetailedTestCases(testCases);
      }
    }

    /** The loop of `_add_test_suite_section` over the failing cases. */
    method AddFailedTests(failedTests: seq<TestCase>)
      modifies this
      ensures doc == old(doc) + FailedDetailsBlocks(failedTests) && styles == old(styles)
    {
      for i := 0 to |failedTests|
        invariant doc == old(doc) + FailedDetailsBlocks(failedTests[..i])
        invariant styles == old(styles)
      {
        FailedDetailsSnoc(failedTests, i);
        AddFailedTestDetails(failedTests[i]);
      }
      assert failedTests[..|failedTests|] == failedTests;
    }

    method AddFailedTestDetails(testCase: TestCase)
      modifies this
      ensures doc == old(doc) + FailedTestBlocks(testCase) && styles == old(styles)
    {
      doc := doc + [Paragraph(Some("List Bullet 2"), [Run(testCase.classname + "." + testCase.name, true, Some(Red))])];
      if Truthy(testCase.failureMessage) {
        doc := doc + [Paragraph(Some("List Bullet 3"), [Plain("Message: " + testCase.failureMessage.value)])];
      }
      if Truthy(testCase.failureDetails) {
        var details := testCase.failureDetails.value;
        if |details| > 500 {
          details := details[..500] + "...";
        }
        doc := doc + [Paragraph(Some("List Bullet 3"), [Plain("Details: " + details)])];
      }
    }

    method AddTestCaseSummaryTable(testCases: seq<TestCase>)
      modifies this
      ensures doc == old(doc) + SummaryTableBlocks(testCases) && styles == old(styles)
    {
      doc := doc + [TextParagraph(None, "Test Cases Summary:")];
      var rows := [HeaderRow()];
      for i := 0 to |testCases|
        invariant |rows| == i + 1 && rows[0] == HeaderRow()
        invariant forall j :: 0 <= j < i ==> rows[j + 1] == CaseRow(testCases[j])
        invariant doc == old(doc) + [TextParagraph(None, "Test Cases Summary:")] && styles == old(styles)
      {
        rows := rows + [CaseRow(testCases[i])];
      }
      assert rows == [HeaderRow()] + CaseRows(testCases);
      doc := doc + [Table(Some("Table Grid"), rows)];
    }

    method AddDetailedTestCases(testCases: seq<TestCase>)
      modifies this
      ensures doc == old(doc) + DetailedCasesBlocks(testCases) && styles == old(styles)
    {
      if testCases == [] {
        return;
      }
      doc := doc + [TextParagraph(None, "Test Cases:")];
      var before := doc;
      for i := 0 to |testCases|
        invariant |doc| == |before| + i && doc[..|before|] == before
        invariant forall j :: 0 <= j < i ==> doc[|before| + j] == CaseLine(testCases[j])
        invariant styles == old(styles)
      {
        var runs := [IconRun(testCases[i].status)];
        runs := runs + [Plain(testCases[i].classname + "." + testCases[i].name + " (" + testCases[i].time + "s)")];
        doc := doc + [Paragraph(Some("List Bullet"), runs)];
      }
      assert doc == before + CaseLines(testCases);
    }

    method AddFooter()
      modifies this
      ensures doc == old(doc) + FooterBlocks() && styles == old(styles)
    {
      doc := doc + [PageBreak];
      doc := doc + [Paragraph(None, [Plain("End of Test Report")])];
    }
  }
}
