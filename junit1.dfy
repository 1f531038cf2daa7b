/**
 * `junit_parser1.py`: a flatter reading of a JUnit XML document (the root's
 * direct `testcase` children and the root's own counts) and the short Word
 * report built from it.
 */
module JUnitParser1 {
  import opened Common
  import opened Numbers
  import opened Xml
  import opened JUnit
  import opened Docx
  import JUnitParser2

  /** One entry of `results`: every field is a string except the status. */
  datatype TestResult = TestResult(
    name: string,
    classname: string,
    time: string,
    status: Status,
    message: string,
    details: string)

  /** The `summary` dictionary. */
  datatype Summary = Summary(
    suiteName: string,
    total: int,
    failures: int,
    errors: int,
    skipped: int,
    time: string,
    results: seq<TestResult>)

  /** Passed and skipped results carry neither message nor details. */
  predicate WellFormedResult(r: TestResult)
  {
    (r.status == Passed || r.status == Skipped) ==> r.message == "" && r.details == ""
  }

  /**
   * One `testcase` element read the way the loop of `parse_junit_xml` reads it:
   * missing name and class become "", a missing time "0"; the status follows the
   * failure > error > skipped priority, and only a failure or an error supplies
   * a message (default "") and details (the element's text, default "").
   */
  function ResultOf(tc: Element): (r: TestResult)
    ensures WellFormedResult(r)
    ensures r.status == StatusOf(tc)
    ensures r.name == Get(tc, "name", "") && r.classname == Get(tc, "classname", "") && r.time == Get(tc, "time", "0")
    ensures (r.status == Failed || r.status == Error) ==>
      r.message == Get(Marker(tc), "message", "") && r.details == Marker(tc).text
  {
    var name := Get(tc, "name", "");
    var classname := Get(tc, "classname", "");
    var time := Get(tc, "time", "0");
    if Find(tc, "failure").Some? then
      var failure := Find(tc, "failure").value;
      TestResult(name, classname, time, Failed, Get(failure, "message", ""), OrDefault(failure.text, ""))
    else if Find(tc, "error").Some? then
      var error := Find(tc, "error").value;
      TestResult(name, classname, time, Error, Get(error, "message", ""), OrDefault(error.text, ""))
    else if Find(tc, "skipped").Some? then
      TestResult(name, classname, time, Skipped, "", "")
    else
      TestResult(name, classname, time, Passed, "", "")
  }

  function ResultsOf(es: seq<Element>): seq<TestResult>
  {
    seq(|es|, i requires 0 <= i < |es| => ResultOf(es[i]))
  }

  /** `int(root.attrib.get("tests", len(results)))`: the declared total, or the number of results when absent. */
  function TotalAttr(root: Element, count: nat): (r: Result<int, ParseError>)
    ensures "tests" !in root.attrs ==> r == Ok(count)
    ensures "tests" in root.attrs ==> r == IntAttr(root, "tests", "0")
  {
    if "tests" in root.attrs then IntAttr(root, "tests", "0") else Ok(count)
  }

  /**
   * `parse_junit_xml` on an already-parsed tree. The root's tag is not looked
   * at: whatever it is, its direct `testcase` children are the results.
   */
  function SummaryOf(root: Element): (r: Result<Summary, ParseError>)
    ensures r.Ok? ==>
      |r.value.results| == |FindAll(root, "testcase")| &&
      forall i :: 0 <= i < |r.value.results| ==> WellFormedResult(r.value.results[i])
  {
    var results := ResultsOf(FindAll(root, "testcase"));
    var total :- TotalAttr(root, |results|);
    var failures :- IntAttr(root, "failures", "0");
    var errors :- IntAttr(root, "errors", "0");
    var skipped :- IntAttr(root, "skipped", "0");
    Ok(Summary(Get(root, "name", "TestSuite"), total, failures, errors, skipped, Get(root, "time", "0"), results))
  }

  /** `parse_junit_xml`, with the loop that appends one result per `testcase` child. */
  method ParseJUnitXml(root: Element) returns (r: Result<Summary, ParseError>)
    ensures r == SummaryOf(root)
  {
    var results: seq<TestResult> := [];
    var suiteName := Get(root, "name", "TestSuite");
    var testcases := FindAll(root, "testcase");
    for i := 0 to |testcases|
      invariant |results| == i
      invariant forall j :: 0 <= j < i ==> results[j] == ResultOf(testcases[j])
    {
      var testcase := testcases[i];
      var name := Get(testcase, "name", "");
      var classname := Get(testcase, "classname", "");
      var time := Get(testcase, "time", "0");
      var status := Passed;
      var message := "";
      var details := "";
      if Find(testcase, "failure").Some? {
        status := Failed;
        var failure := Find(testcase, "failure").value;
        message := Get(failure, "message", "");
        details := OrDefault(failure.text, "");
      } else if Find(testcase, "error").Some? {
        status := Error;
        var error := Find(testcase, "error").value;
        message := Get(error, "message", "");
        details := OrDefault(error.text, "");
      } else if Find(testcase, "skipped").Some? {
        status := Skipped;
      }
      results := results + [TestResult(name, classname, time, status, message, details)];
    }
    assert results == ResultsOf(testcases);
    var total :- TotalAttr(root, |results|);
    var failures :- IntAttr(root, "failures", "0");
    var errors :- IntAttr(root, "errors", "0");
    var skipped :- IntAttr(root, "skipped", "0");
    r := Ok(Summary(suiteName, total, failures, errors, skipped, Get(root, "time", "0"), results));
  }

  /**
   * What `parse_junit_xml` reads from the root: the name defaults to
   * "TestSuite"; the total is the `tests` attribute when there is one and the
   * number of results otherwise; the other counts default to 0; the first
   * malformed count, in the order tests, failures, errors, skipped, is the error.
   */
  lemma SummaryOfFields(root: Element)
    ensures var present := "tests" in root.attrs;
      SummaryOf(root).Ok? <==>
        (!present || IsDecimal(root.attrs["tests"])) && IsDecimal(Get(root, "failures", "0")) &&
        IsDecimal(Get(root, "errors", "0")) && IsDecimal(Get(root, "skipped", "0"))
    ensures "tests" in root.attrs && !IsDecimal(root.attrs["tests"]) ==>
      SummaryOf(root) == Err(InvalidInteger(root.attrs["tests"]))
    ensures var testsOk := "tests" !in root.attrs || IsDecimal(root.attrs["tests"]);
      testsOk && !IsDecimal(Get(root, "failures", "0")) ==>
      SummaryOf(root) == Err(InvalidInteger(Get(root, "failures", "0")))
    ensures var testsOk := "tests" !in root.attrs || IsDecimal(root.attrs["tests"]);
      testsOk && IsDecimal(Get(root, "failures", "0")) && !IsDecimal(Get(root, "errors", "0")) ==>
      SummaryOf(root) == Err(InvalidInteger(Get(root, "errors", "0")))
    ensures var testsOk := "tests" !in root.attrs || IsDecimal(root.attrs["tests"]);
      testsOk && IsDecimal(Get(root, "failures", "0")) && IsDecimal(Get(root, "errors", "0")) &&
      !IsDecimal(Get(root, "skipped", "0")) ==>
      SummaryOf(root) == Err(InvalidInteger(Get(root, "skipped", "0")))
    ensures SummaryOf(root).Ok? ==>
      var s := SummaryOf(root).value;
      && s.suiteName == Get(root, "name", "TestSuite")
      && ("tests" in root.attrs ==> ParseInt(root.attrs["tests"]) == Some(s.total))
      && ("tests" !in root.attrs ==> s.total == |FindAll(root, "testcase")|)
      && Some(s.failures) == ParseInt(Get(root, "failures", "0"))
      && Some(s.errors) == ParseInt(Get(root, "errors", "0"))
      && Some(s.skipped) == ParseInt(Get(root, "skipped", "0"))
      && s.time == Get(root, "time", "0")
      && s.results == ResultsOf(FindAll(root, "testcase"))
  {
  }

  /** A `testsuites` root whose children are all suites has no direct `testcase` children, so no results. */
  lemma NestedSuitesGiveNoResults(root: Element)
    requires forall i :: 0 <= i < |root.children| ==> root.children[i].tag == "testsuite"
    ensures SummaryOf(root).Ok? ==> SummaryOf(root).value.results == []
  {
    NoneWhenNoneTagged(root.children, "testcase");
  }

  /**
   * On a `testsuite` root the two parsers accept the same documents, read the
   * same counts (the total falls back to the number of results where the other
   * parser falls back to 0), and give each case the same status, in the same
   * order.
   */
  lemma AgreesWithParser2(root: Element)
    requires root.tag == "testsuite"
    ensures SummaryOf(root).Ok? <==> JUnitParser2.SuiteOf(root).Ok?
    ensures SummaryOf(root).Ok? ==>
      var s1 := SummaryOf(root).value;
      var s2 := JUnitParser2.SuiteOf(root).value;
      && s1.failures == s2.failures && s1.errors == s2.errors && s1.skipped == s2.skipped && s1.time == s2.time
      && ("tests" in root.attrs ==> s1.total == s2.tests)
      && ("tests" !in root.attrs ==> s1.total == |s1.results| && s2.tests == 0)
      && |s1.results| == |s2.testCases|
      && forall i :: 0 <= i < |s1.results| ==> s1.results[i].status == s2.testCases[i].status
  {
    SummaryOfFields(root);
    JUnitParser2.SuiteOfFields(root);
    assert ParseInt("0") == Some(0);
  }

  // ---------------------------------------------------------------------------
  // A JUnit XML writer, the partner the parser reads back.

  function ResultElement(r: TestResult): Element
  {
    var attrs := map["name" := r.name, "classname" := r.classname, "time" := r.time];
    var children :=
      match r.status
      case Passed => []
      case Failed => [Element("failure", map["message" := r.message], r.details, [])]
      case Error => [Element("error", map["message" := r.message], r.details, [])]
      case Skipped => [Element("skipped", map[], "", [])];
    Element("testcase", attrs, "", children)
  }

  /** A `testsuite` element recording `s`, its counts written with `str`. */
  function SummaryElement(s: Summary): Element
  {
    var attrs := map["name" := s.suiteName, "tests" := ShowInt(s.total), "failures" := ShowInt(s.failures),
                     "errors" := ShowInt(s.errors), "skipped" := ShowInt(s.skipped), "time" := s.time];
    Element("testsuite", attrs, "", seq(|s.results|, i requires 0 <= i < |s.results| => ResultElement(s.results[i])))
  }

  lemma ResultRoundTrip(r: TestResult)
    requires WellFormedResult(r)
    ensures ResultOf(ResultElement(r)) == r
  {
    var e := ResultElement(r);
    match r.status
    case Passed =>
      assert Find(e, "failure").None? && Find(e, "error").None? && Find(e, "skipped").None?;
    case Failed =>
      assert Find(e, "failure") == Some(e.children[0]);
    case Error =>
      assert Find(e, "failure").None? && Find(e, "error") == Some(e.children[0]);
    case Skipped =>
      assert Find(e, "failure").None? && Find(e, "error").None? && Find(e, "skipped") == Some(e.children[0]);
  }

  /** A summary whose results are well formed survives being written and parsed again. */
  lemma SummaryRoundTrip(s: Summary)
    requires forall i :: 0 <= i < |s.results| ==> WellFormedResult(s.results[i])
    ensures SummaryOf(SummaryElement(s)) == Ok(s)
  {
    var e := SummaryElement(s);
    JUnitParser2.CountRoundTrip(e, "tests", s.total);
    JUnitParser2.CountRoundTrip(e, "failures", s.failures);
    JUnitParser2.CountRoundTrip(e, "errors", s.errors);
    JUnitParser2.CountRoundTrip(e, "skipped", s.skipped);
    assert Get(e, "name", "TestSuite") == s.suiteName && Get(e, "time", "0") == s.time;
    ResultsRoundTrip(s.results, e);
  }

  lemma ResultsRoundTrip(results: seq<TestResult>, e: Element)
    requires forall i :: 0 <= i < |results| ==> WellFormedResult(results[i])
    requires e.children == seq(|results|, i requires 0 <= i < |results| => ResultElement(results[i]))
    ensures ResultsOf(FindAll(e, "testcase")) == results
  {
    AllTagged(e.children, "testcase");
    forall i | 0 <= i < |results| ensures ResultOf(e.children[i]) == results[i] {
      ResultRoundTrip(results[i]);
    }
  }

  // ---------------------------------------------------------------------------
  // The report

  /** The runs of one result's paragraph. */
  function ResultRuns(r: TestResult): seq<Run>
  {
    var header := Run(r.name + " (" + r.classname + ") - " + StatusUpper(r.status) + " [Time: " + r.time + "s]", true, None);
    var detailsRun := if r.details != "" then [Plain("\n  Details: " + r.details)] else [];
    match r.status
    case Failed => [header, Run("\n  Failure: " + r.message, false, Some(Red))] + detailsRun
    case Error => [header, Run("\n  Error: " + r.message, false, Some(Orange))] + detailsRun
    case Skipped => [header, Run("\n  Skipped", false, Some(Gray))]
    case Passed => [header]
  }

  /** The colour of the second run, the one naming the outcome. */
  function OutcomeColor(s: Status): Option<Rgb>
  {
    match s
    case Failed => Some(Red)
    case Error => Some(Orange)
    case Skipped => Some(Gray)
    case Passed => None
  }

  /**
   * Each result's paragraph opens with a bold header naming its status in
   * capitals; a passed result shows nothing else; every other result has one
   * outcome run in its status's colour (red, orange, gray), and a failure or an
   * error adds a details run exactly when it has details.
   */
  lemma ResultRunsShape(r: TestResult)
    ensures var runs := ResultRuns(r);
      && runs[0].bold && runs[0].color == None
      && StartsWith(runs[0].text, r.name + " (" + r.classname + ") - " + StatusUpper(r.status))
      && (r.status == Passed <==> |runs| == 1)
      && (r.status != Passed ==> runs[1].color == OutcomeColor(r.status) && !runs[1].bold)
      && (|runs| == 3 <==> (r.status == Failed || r.status == Error) && r.details != "")
      && (|runs| == 3 ==> runs[2] == Plain("\n  Details: " + r.details))
  {
    var h := r.name + " (" + r.classname + ") - " + StatusUpper(r.status);
    assert (h + " [Time: " + r.time + "s]")[..|h|] == h;
  }

  /** The header and the value row of the summary table; nothing in it is bold. */
  function SummaryTableRows(s: Summary): seq<seq<Cell>>
  {
    [[Cell("Total", false, None), Cell("Failures", false, None), Cell("Errors", false, None),
      Cell("Skipped", false, None), Cell("Time (s)", false, None)],
     [Cell(ShowInt(s.total), false, None), Cell(ShowInt(s.failures), false, None), Cell(ShowInt(s.errors), false, None),
      Cell(ShowInt(s.skipped), false, None), Cell(s.time, false, None)]]
  }

  /** The blocks before the per-result paragraphs. */
  function ReportPreamble(s: Summary): seq<Block>
  {
    [Heading("JUnit Test Report: " + s.suiteName, 0),
     Heading("Summary", 1),
     Table(None, SummaryTableRows(s)),
     TextParagraph(None, ""),
     Heading("Test Cases", 1)]
  }

  /** `create_docx_report`, building the document block by block (saving it is not modelled). */
  method CreateDocxReport(summary: Summary) returns (doc: seq<Block>)
    ensures |doc| == 5 + |summary.results|
    ensures doc[..5] == ReportPreamble(summary)
    ensures forall i :: 0 <= i < |summary.results| ==> doc[5 + i] == Paragraph(None, ResultRuns(summary.results[i]))
  {
    doc := [];
    doc := doc + [Heading("JUnit Test Report: " + summary.suiteName, 0)];
    doc := doc + [Heading("Summary", 1)];
    var header := [Cell("Total", false, None), Cell("Failures", false, None), Cell("Errors", false, None),
                   Cell("Skipped", false, None), Cell("Time (s)", false, None)];
    var row := [Cell(ShowInt(summary.total), false, None), Cell(ShowInt(summary.failures), false, None),
                Cell(ShowInt(summary.errors), false, None), Cell(ShowInt(summary.skipped), false, None),
                Cell(summary.time, false, None)];
    doc := doc + [Table(None, [header, row])];
    doc := doc + [TextParagraph(None, "")];
    doc := doc + [Heading("Test Cases", 1)];
    for i := 0 to |summary.results|
      invariant |doc| == 5 + i
      invariant doc[..5] == ReportPreamble(summary)
      invariant forall j :: 0 <= j < i ==> doc[5 + j] == Paragraph(None, ResultRuns(summary.results[j]))
    {
      var paragraph := ResultParagraph(summary.results[i]);
      doc := doc + [paragraph];
    }
  }

  /** The paragraph `create_docx_report` writes for one result: its line, then its status details. */
  method ResultParagraph(result: TestResult) returns (paragraph: Block)
    ensures paragraph == Paragraph(None, ResultRuns(result))
  {
    var status := result.status;
    var runs := [Run(result.name + " (" + result.classname + ") - " + StatusUpper(status) + " [Time: " + result.time + "s]", true, None)];
    if status == Failed {
      runs := runs + [Run("\n  Failure: " + result.message, false, Some(Red))];
      if result.details != "" {
        runs := runs + [Plain("\n  Details: " + result.details)];
      }
    } else if status == Error {
      runs := runs + [Run("\n  Error: " + result.message, false, Some(Orange))];
      if result.details != "" {
        runs := runs + [Plain("\n  Details: " + result.details)];
      }
    } else if status == Skipped {
      runs := runs + [Run("\n  Skipped", false, Some(Gray))];
    }
    paragraph := Paragraph(None, runs);
  }

  /** The summary table shows the parsed counts with `str`, which read back as the same integers. */
  lemma SummaryTableReadsBack(s: Summary)
    ensures var row := SummaryTableRows(s)[1];
      ParseInt(row[0].text) == Some(s.total) && ParseInt(row[1].text) == Some(s.failures) &&
      ParseInt(row[2].text) == Some(s.errors) && ParseInt(row[3].text) == Some(s.skipped) && row[4].text == s.time
  {
    ParseShowInt(s.total);
    ParseShowInt(s.failures);
    ParseShowInt(s.errors);
    ParseShowInt(s.skipped);
  }
}
