/** The test-case status rule both JUnit report scripts apply. */
module JUnit {
  import opened Common
  import opened Xml

  /** The four outcomes of a test case; the scripts spell them 'passed', 'failed', 'error', 'skipped'. */
  datatype Status = Passed | Failed | Error | Skipped

  /** `status.upper()` of the status's spelling. */
  function StatusUpper(s: Status): string
  {
    match s
    case Passed => "PASSED"
    case Failed => "FAILED"
    case Error => "ERROR"
    case Skipped => "SKIPPED"
  }

  /**
   * The status of a `testcase` element: a `failure` child wins over an `error`
   * child, which wins over a `skipped` child; with none of them it passed.
   */
  function StatusOf(e: Element): (s: Status)
    ensures s == Failed <==> Find(e, "failure").Some?
    ensures s == Error <==> Find(e, "failure").None? && Find(e, "error").Some?
    ensures s == Skipped <==> Find(e, "failure").None? && Find(e, "error").None? && Find(e, "skipped").Some?
    ensures s == Passed <==> Find(e, "failure").None? && Find(e, "error").None? && Find(e, "skipped").None?
  {
    if Find(e, "failure").Some? then Failed
    else if Find(e, "error").Some? then Error
    else if Find(e, "skipped").Some? then Skipped
    else Passed
  }

  /** The child element that decided a failed or errored status: the first child with that tag. */
  function Marker(e: Element): (m: Element)
    requires StatusOf(e) == Failed || StatusOf(e) == Error
    ensures m.tag == (if StatusOf(e) == Failed then "failure" else "error") && m in e.children
    ensures exists i :: 0 <= i < |e.children| && e.children[i] == m && forall j :: 0 <= j < i ==> e.children[j].tag != m.tag
  {
    if StatusOf(e) == Failed then Find(e, "failure").value else Find(e, "error").value
  }

  /** Python's `s or default` on a string. */
  function OrDefault(s: string, default: string): (r: string)
  {
    if s != "" then s else default
  }
}
