/**
 * The parser of `junit_parser2.py`: a JUnit XML tree (root `testsuite` or
 * `testsuites`) becomes a list of suites, each with its cases in document order.
 */
module JUnitParser2 {
  import opened Common
  import opened Numbers
  import opened Xml
  import opened JUnit

  /**
   * A parsed test case. `time` is the attribute text that `float()` would read.
   * Failed and errored cases carry a failure message and details, skipped
   * cases a skip message, passed cases neither.
   */
  datatype TestCase = TestCase(
    name: string,
    classname: string,
    time: string,
    status: Status,
    failureMessage: Option<string>,
    failureDetails: Option<string>,
    skippedMessage: Option<string>)

  /** A parsed suite: its declared counts as the attributes give them, and its cases. */
  datatype TestSuite = TestSuite(
    name: string,
    tests: int,
    failures: int,
    errors: int,
    skipped: int,
    time: string,
    testCases: seq<TestCase>)

  /** The shape every `TestCase` built by the parser has. */
  predicate WellFormedCase(c: TestCase)
  {
    match c.status
    case Passed => c.failureMessage.None? && c.failureDetails.None? && c.skippedMessage.None?
    case Failed | Error =>
      c.failureMessage.Some? && c.failureDetails.Some? && c.failureDetails.value != "" && c.skippedMessage.None?
    case Skipped => c.failureMessage.None? && c.failureDetails.None? && c.skippedMessage.Some?
  }

  predicate WellFormedSuite(s: TestSuite)
  {
    forall i :: 0 <= i < |s.testCases| ==> WellFormedCase(s.testCases[i])
  }

  /** `_parse_testcase`. */
  function CaseOf(e: Element): (c: TestCase)
    ensures WellFormedCase(c)
    ensures c.status == StatusOf(e)
    ensures c.name == Get(e, "name", "Unknown") && c.classname == Get(e, "classname", "Unknown")
    ensures c.time == Get(e, "time", "0")
    ensures (c.status == Failed || c.status == Error) ==>
      c.failureMessage == Some(Get(Marker(e), "message", "No message")) &&
      c.failureDetails == Some(OrDefault(Marker(e).text, "No details"))
    ensures c.status == Skipped ==>
      c.skippedMessage == Some(Get(Find(e, "skipped").value, "message", "Test skipped"))
  {
    var name := Get(e, "name", "Unknown");
    var classname := Get(e, "classname", "Unknown");
    var time := Get(e, "time", "0");
    var failureElem := Find(e, "failure");
    var errorElem := Find(e, "error");
    var skippedElem := Find(e, "skipped");
    if failureElem.Some? then
      var m := failureElem.value;
      TestCase(name, classname, time, Failed,
               Some(Get(m, "message", "No message")), Some(OrDefault(m.text, "No details")), None)
    else if errorElem.Some? then
      var m := errorElem.value;
      TestCase(name, classname, time, Error,
               Some(Get(m, "message", "No message")), Some(OrDefault(m.text, "No details")), None)
    else if skippedElem.Some? then
      TestCase(name, classname, time, Skipped, None, None, Some(Get(skippedElem.value, "message", "Test skipped")))
    else
      TestCase(name, classname, time, Passed, None, None, None)
  }

  function CasesOf(es: seq<Element>): (cs: seq<TestCase>)
  {
    seq(|es|, i requires 0 <= i < |es| => CaseOf(es[i]))
  }

  /**
   * `_parse_testsuite`: name defaults to "Unknown" and each count to 0; the
   * cases are the `testcase` children, one each, in order. The declared
   * counts are taken as they are, not checked against the cases.
   */
  function SuiteOf(e: Element): (r: Result<TestSuite, ParseError>)
    ensures r.Ok? ==> WellFormedSuite(r.value) && |r.value.testCases| == |FindAll(e, "testcase")|
  {
    var tests :- IntAttr(e, "tests", "0");
    var failures :- IntAttr(e, "failures", "0");
    var errors :- IntAttr(e, "errors", "0");
    var skipped :- IntAttr(e, "skipped", "0");
    Ok(TestSuite(Get(e, "name", "Unknown"), tests, failures, errors, skipped, Get(e, "time", "0"),
                 CasesOf(FindAll(e, "testcase"))))
  }

  /**
   * What `_parse_testsuite` reads: the name defaults to "Unknown" and each
   * count to 0; the cases are the `testcase` children, one each, in order; the
   * first malformed count, in the order tests, failures, errors, skipped, is
   * the error. The declared counts are taken as they are, not checked against
   * the cases.
   */
  lemma SuiteOfFields(e: Element)
    ensures SuiteOf(e).Ok? <==>
      IsDecimal(Get(e, "tests", "0")) && IsDecimal(Get(e, "failures", "0")) &&
      IsDecimal(Get(e, "errors", "0")) && IsDecimal(Get(e, "skipped", "0"))
    ensures !IsDecimal(Get(e, "tests", "0")) ==> SuiteOf(e) == Err(InvalidInteger(Get(e, "tests", "0")))
    ensures IsDecimal(Get(e, "tests", "0")) && !IsDecimal(Get(e, "failures", "0")) ==>
      SuiteOf(e) == Err(InvalidInteger(Get(e, "failures", "0")))
    ensures IsDecimal(Get(e, "tests", "0")) && IsDecimal(Get(e, "failures", "0")) && !IsDecimal(Get(e, "errors", "0")) ==>
      SuiteOf(e) == Err(InvalidInteger(Get(e, "errors", "0")))
    ensures (IsDecimal(Get(e, "tests", "0")) && IsDecimal(Get(e, "failures", "0")) && IsDecimal(Get(e, "errors", "0")) &&
             !IsDecimal(Get(e, "skipped", "0"))) ==>
      SuiteOf(e) == Err(InvalidInteger(Get(e, "skipped", "0")))
    ensures SuiteOf(e).Ok? ==>
      var s := SuiteOf(e).value;
      && s.name == Get(e, "name", "Unknown")
      && Some(s.tests) == ParseInt(Get(e, "tests", "0"))
      && Some(s.failures) == ParseInt(Get(e, "failures", "0"))
      && Some(s.errors) == ParseInt(Get(e, "errors", "0"))
      && Some(s.skipped) == ParseInt(Get(e, "skipped", "0"))
      && s.time == Get(e, "time", "0")
      && s.testCases == CasesOf(FindAll(e, "testcase"))
  {
  }

  /** The suites of a `testsuites` root in order, or the error of the first suite that fails. */
  function SuitesOf(es: seq<Element>): (r: Result<seq<TestSuite>, ParseError>)
    ensures r.Ok? <==> forall i :: 0 <= i < |es| ==> SuiteOf(es[i]).Ok?
    ensures r.Ok? ==> |r.value| == |es| && forall i :: 0 <= i < |es| ==> SuiteOf(es[i]) == Ok(r.value[i])
  {
    if es == [] then Ok([])
    else
      var s :- SuiteOf(es[0]);
      var rest :- SuitesOf(es[1..]);
      assert forall i :: 1 <= i < |es| ==> es[i] == es[1..][i - 1];
      Ok([s] + rest)
  }

  /** The error of the whole parse is that of the first suite that fails. */
  lemma {:induction false} SuitesOfFirstError(es: seq<Element>, i: nat)
    requires i < |es| && SuiteOf(es[i]).Err? && forall j :: 0 <= j < i ==> SuiteOf(es[j]).Ok?
    ensures SuitesOf(es) == Err(SuiteOf(es[i]).error)
  {
    if i > 0 {
      assert es[1..][i - 1] == es[i];
      forall j | 0 <= j < i - 1 ensures SuiteOf(es[1..][j]).Ok? {
        assert es[1..][j] == es[j + 1];
      }
      SuitesOfFirstError(es[1..], i - 1);
    }
  }

  /** When every element parses, the suites are exactly what each element parses to. */
  lemma SuitesOfAllOk(es: seq<Element>, suites: seq<TestSuite>)
    requires |suites| == |es| && forall j :: 0 <= j < |es| ==> SuiteOf(es[j]) == Ok(suites[j])
    ensures SuitesOf(es) == Ok(suites)
  {
    assert SuitesOf(es).Ok?;
    assert SuitesOf(es).value == suites;
  }

  /**
   * `JUnitXMLParser.parse`: a `testsuite` root is one suite, a `testsuites`
   * root one suite per `testsuite` child, and any other root is an error.
   */
  function ParsedSuites(root: Element): (r: Result<seq<TestSuite>, ParseError>)
    ensures root.tag != "testsuite" && root.tag != "testsuites" ==> r == Err(UnexpectedRoot(root.tag))
    ensures root.tag == "testsuite" ==> r.Ok? == SuiteOf(root).Ok?
    ensures root.tag == "testsuite" && r.Ok? ==> r.value == [SuiteOf(root).value]
    ensures root.tag == "testsuite" && r.Err? ==> r.error == SuiteOf(root).error
    ensures root.tag == "testsuites" ==> r == SuitesOf(FindAll(root, "testsuite"))
    ensures root.tag == "testsuites" && r.Ok? ==>
      |r.value| == |FindAll(root, "testsuite")| &&
      forall i :: 0 <= i < |r.value| ==> SuiteOf(FindAll(root, "testsuite")[i]) == Ok(r.value[i])
  {
    if root.tag == "testsuite" then
      var s :- SuiteOf(root);
      Ok([s])
    else if root.tag == "testsuites" then
      SuitesOf(FindAll(root, "testsuite"))
    else
      Err(UnexpectedRoot(root.tag))
  }

  /** `_parse_testsuite`, appending one case per `testcase` child. */
  method ParseTestSuite(e: Element) returns (r: Result<TestSuite, ParseError>)
    ensures r == SuiteOf(e)
  {
    var name := Get(e, "name", "Unknown");
    var tests :- IntAttr(e, "tests", "0");
    var failures :- IntAttr(e, "failures", "0");
    var errors :- IntAttr(e, "errors", "0");
    var skipped :- IntAttr(e, "skipped", "0");
    var time := Get(e, "time", "0");
    var testCases := ParseTestCases(FindAll(e, "testcase"));
    assert testCases == CasesOf(FindAll(e, "testcase"));
    r := Ok(TestSuite(name, tests, failures, errors, skipped, time, testCases));
  }

  /** The loop of `_parse_testsuite` that appends one case per `testcase` element. */
  method ParseTestCases(elems: seq<Element>) returns (testCases: seq<TestCase>)
    ensures |testCases| == |elems|
    ensures forall i :: 0 <= i < |elems| ==> testCases[i] == CaseOf(elems[i])
  {
    testCases := [];
    for i := 0 to |elems|
      invariant |testCases| == i
      invariant forall j :: 0 <= j < i ==> testCases[j] == CaseOf(elems[j])
    {
      testCases := testCases + [CaseOf(elems[i])];
    }
  }

  /** The loop of `JUnitXMLParser.parse` over the `testsuite` children, appending suite by suite. */
  method ParseSuiteList(elems: seq<Element>) returns (r: Result<seq<TestSuite>, ParseError>)
    ensures r == SuitesOf(elems)
  {
    var testSuites: seq<TestSuite> := [];
    for i := 0 to |elems|
      invariant |testSuites| == i
      invariant forall j :: 0 <= j < i ==> SuiteOf(elems[j]) == Ok(testSuites[j])
    {
      var s := ParseTestSuite(elems[i]);
      if s.Err? {
        SuitesOfFirstError(elems, i);
        return Err(s.error);
      }
      testSuites := testSuites + [s.value];
    }
    SuitesOfAllOk(elems, testSuites);
    r := Ok(testSuites);
  }

  /** `JUnitXMLParser.parse` on an already-parsed tree. */
  method Parse(root: Element) returns (r: Result<seq<TestSuite>, ParseError>)
    ensures r == ParsedSuites(root)
  {
    if root.tag == "testsuite" {
      var s := ParseTestSuite(root);
      if s.Err? {
        assert ParsedSuites(root) == Err(s.error);
        return Err(s.error);
      }
      r := Ok([s.value]);
    } else if root.tag == "testsuites" {
      r := ParseSuiteList(FindAll(root, "testsuite"));
    } else {
      assert ParsedSuites(root) == Err(UnexpectedRoot(root.tag));
      r := Err(UnexpectedRoot(root.tag));
    }
  }

  // ------------------------------------------------------------------------
  // A writer of JUnit XML, the partner that the parser reads back.

  function MarkerElement(tag: string, message: string, text: string): Element
  {
    Element(tag, map["message" := message], text, [])
  }

  /** A `testcase` element that records `c`. */
  function CaseElement(c: TestCase): Element
    requires WellFormedCase(c)
  {
    var attrs := map["name" := c.name, "classname" := c.classname, "time" := c.time];
    var children :=
      match c.status
      case Passed => []
      case Failed => [MarkerElement("failure", c.failureMessage.value, c.failureDetails.value)]
      case Error => [MarkerElement("error", c.failureMessage.value, c.failureDetails.value)]
      case Skipped => [MarkerElement("skipped", c.skippedMessage.value, "")];
    Element("testcase", attrs, "", children)
  }

  /** A `testsuite` element that records `s`, its counts written with `str`. */
  function SuiteElement(s: TestSuite): Element
    requires WellFormedSuite(s)
  {
    var attrs := map["name" := s.name, "tests" := ShowInt(s.tests), "failures" := ShowInt(s.failures),
                     "errors" := ShowInt(s.errors), "skipped" := ShowInt(s.skipped), "time" := s.time];
    Element("testsuite", attrs, "", seq(|s.testCases|, i requires 0 <= i < |s.testCases| => CaseElement(s.testCases[i])))
  }

  /** A `testsuites` root holding one `testsuite` element per suite. */
  function ReportElement(suites: seq<TestSuite>): Element
    requires forall i :: 0 <= i < |suites| ==> WellFormedSuite(suites[i])
  {
    Element("testsuites", map[], "", seq(|suites|, i requires 0 <= i < |suites| => SuiteElement(suites[i])))
  }

  /** Every well-formed case survives being written and parsed again. */
  lemma CaseRoundTrip(c: TestCase)
    requires WellFormedCase(c)
    ensures CaseOf(CaseElement(c)) == c
  {
    var e := CaseElement(c);
    match c.status
    case Passed =>
      assert Find(e, "failure").None? && Find(e, "error").None? && Find(e, "skipped").None?;
    case Failed =>
      assert Find(e, "failure") == Some(e.children[0]);
    case Error =>
      assert Find(e, "failure").None? && Find(e, "error") == Some(e.children[0]);
    case Skipped =>
      assert Find(e, "failure").None? && Find(e, "error").None? && Find(e, "skipped") == Some(e.children[0]);
  }

  /** Every well-formed suite survives being written and parsed again. */
  lemma SuiteRoundTrip(s: TestSuite)
    requires WellFormedSuite(s)
    ensures SuiteOf(SuiteElement(s)) == Ok(s)
  {
    var e := SuiteElement(s);
    CountRoundTrip(e, "tests", s.tests);
    CountRoundTrip(e, "failures", s.failures);
    CountRoundTrip(e, "errors", s.errors);
    CountRoundTrip(e, "skipped", s.skipped);
    assert Get(e, "name", "Unknown") == s.name && Get(e, "time", "0") == s.time;
    CasesRoundTrip(s.testCases, e);
  }

  lemma CasesRoundTrip(cases: seq<TestCase>, e: Element)
    requires forall i :: 0 <= i < |cases| ==> WellFormedCase(cases[i])
    requires e.children == seq(|cases|, i requires 0 <= i < |cases| => CaseElement(cases[i]))
    ensures CasesOf(FindAll(e, "testcase")) == cases
  {
    AllTagged(e.children, "testcase");
    forall i | 0 <= i < |cases| ensures CaseOf(e.children[i]) == cases[i] {
      CaseRoundTrip(cases[i]);
    }
  }

  lemma CountRoundTrip(e: Element, key: string, n: int)
    requires key in e.attrs && e.attrs[key] == ShowInt(n)
    ensures IntAttr(e, key, "0") == Ok(n)
  {
    ParseShowInt(n);
  }

  /** A `testsuites` document written from well-formed suites parses back to those suites, in order. */
  lemma ReportRoundTrip(suites: seq<TestSuite>)
    requires forall i :: 0 <= i < |suites| ==> WellFormedSuite(suites[i])
    ensures ParsedSuites(ReportElement(suites)) == Ok(suites)
  {
    var root := ReportElement(suites);
    AllTagged(root.children, "testsuite");
    forall i | 0 <= i < |suites| ensures SuiteOf(root.children[i]) == Ok(suites[i]) {
      SuiteRoundTrip(suites[i]);
    }
    var r := SuitesOf(root.children);
    assert r.Ok?;
    assert r.value == suites;
  }

  /** A suite may declare more tests than it has cases; the parser keeps both as they are. */
  lemma CountsNotReconciled()
    ensures exists e :: SuiteOf(e).Ok? && SuiteOf(e).value.tests != |SuiteOf(e).value.testCases|
  {
    var e := Element("testsuite", map["tests" := "5"], "", []);
    assert ParseInt("5") == Some(5);
    assert SuiteOf(e).value.tests == 5;
  }
}
