/**
 * Package reporter: the JUnit report of a run, one testcase per test case,
 * and the summary status of the whole run.
 */
module Reporter {
  import opened Common
  import opened Core
  import opened TestMgr

  /* ---------------------------------------------------------------------- */
  /* The JUnit report                                                       */
  /* ---------------------------------------------------------------------- */

  /** A JUnit result element (junit.Result): its message and its type, "" when not given. */
  datatype JResult = JResult(message: string, kind: string)

  /**
   * A JUnit testcase (junit.Testcase). The status string is the test case's
   * status; the time is the run time as a duration, since its decimal
   * rendering is not part of this model.
   */
  datatype Testcase = Testcase(
    name: string,
    status: TestCaseStatus,
    time: Option<nat>,
    systemOut: Option<string>,
    skipped: Option<JResult>,
    failure: Option<JResult>,
    error: Option<JResult>)

  /** A JUnit testsuite (junit.Testsuite): its name and its testcases in order. */
  datatype Testsuite = Testsuite(name: string, testcases: seq<Testcase>)

  /** At most one of the Skipped, Failure and Error elements is set. */
  predicate AtMostOneResult(t: Testcase)
  {
    (if t.skipped.Some? then 1 else 0) + (if t.failure.Some? then 1 else 0) + (if t.error.Some? then 1 else 0) <= 1
  }

  /**
   * The testcase for one test case in ProduceJUnitXML. `removeAnsi` is
   * utils.RemoveAllANSI, a regular-expression replacement left uninterpreted.
   */
  function ToTestcase(v: CaseView, removeAnsi: string -> string): (t: Testcase)
    ensures t.name == v.name && t.status == v.status
    ensures t.time.Some? <==> v.status.Ran()
    ensures t.systemOut.Some? <==> v.status.Ran()
    ensures t.time.Some? ==> t.time.value == v.runTime
    ensures t.systemOut.Some? ==> t.systemOut.value == removeAnsi(Join(v.output, "\n"))
    ensures AtMostOneResult(t)
    ensures t.skipped.Some? <==> v.status in {Pending, NotRun, Skipped}
    ensures t.failure.Some? <==> v.status == Failed
    ensures t.error.Some? <==> v.status == Running || v.status == Error || v.status.Unknown?
    ensures v.status in {Skipped, Failed, Error} ==> ResultOf(t).message == v.reason
    ensures v.status == Pending ==> t.skipped == Some(JResult("Test case is still pending", "Pending"))
    ensures v.status == Running ==> t.error == Some(JResult("Test case is still running", "Running"))
    ensures v.status == NotRun ==> t.skipped == Some(JResult("Test case was not run", "NotRun"))
    ensures v.status == Skipped ==> t.skipped == Some(JResult(v.reason, "Skipped"))
    ensures v.status == Failed ==> t.failure == Some(JResult(v.reason, ""))
    ensures v.status == Error ==> t.error == Some(JResult(v.reason, ""))
    ensures v.status.Unknown? ==> t.error == Some(JResult("Unknown test case status", "InvalidStatus"))
    ensures Unsettled(t) <==> !v.status.IsTerminal()
  {
    var ran := v.status.Ran();
    var base := Testcase(v.name, v.status,
                         if ran then Some(v.runTime) else None,
                         if ran then Some(removeAnsi(Join(v.output, "\n"))) else None,
                         None, None, None);
    match v.status
    case Pending => base.(skipped := Some(JResult("Test case is still pending", "Pending")))
    case Running => base.(error := Some(JResult("Test case is still running", "Running")))
    case NotRun => base.(skipped := Some(JResult("Test case was not run", "NotRun")))
    case Skipped => base.(skipped := Some(JResult(v.reason, "Skipped")))
    case Failed => base.(failure := Some(JResult(v.reason, "")))
    case Error => base.(error := Some(JResult(v.reason, "")))
    case Passed => base
    case Unknown(_) => base.(error := Some(JResult("Unknown test case status", "InvalidStatus")))
  }

  /** The one result element of a testcase that has one. */
  function ResultOf(t: Testcase): JResult
  {
    if t.skipped.Some? then t.skipped.value
    else if t.failure.Some? then t.failure.value
    else if t.error.Some? then t.error.value
    else JResult("", "")
  }

  /** Statuses that can only appear in a report of an unfinished or corrupt run. */
  predicate Unsettled(t: Testcase)
  {
    ResultOf(t).kind in {"Pending", "Running", "InvalidStatus"}
  }

  /**
   * The testcases of ProduceJUnitXML: the loop over TestCases() that maps
   * each test case and adds it to a single suite named after the registrant.
   */
  method ProduceJUnit(tm: StormTestManager, removeAnsi: string -> string) returns (suite: Testsuite)
    ensures suite.name == tm.registrant.name
    ensures |suite.testcases| == |tm.testCases|
    ensures forall k :: 0 <= k < |tm.testCases| ==>
              suite.testcases[k] == ToTestcase(tm.testCases[k].View(), removeAnsi)
  {
    suite := Testsuite(tm.Registrant().name, []);
    var cases := tm.TestCases();
    for i := 0 to |cases|
      invariant suite.name == tm.registrant.name
      invariant |suite.testcases| == i
      invariant forall k :: 0 <= k < i ==> suite.testcases[k] == ToTestcase(cases[k].View(), removeAnsi)
    {
      var tc := ToTestcase(cases[i].View(), removeAnsi);
      suite := AddTestcase(suite, tc);
    }
  }

  /** Testsuite.AddTestcase: appends one testcase. */
  function AddTestcase(s: Testsuite, t: Testcase): (r: Testsuite)
    ensures r.name == s.name && r.testcases == s.testcases + [t]
  {
    s.(testcases := s.testcases + [t])
  }

  /* ---------------------------------------------------------------------- */
  /* TestSummaryStatus                                                      */
  /* ---------------------------------------------------------------------- */

  /** TestSummaryStatus is an int enum; any other integer is an unknown status. */
  type SummaryStatus = int

  const StatusOk: SummaryStatus := 0
  const StatusFailed: SummaryStatus := 1
  const StatusError: SummaryStatus := 2

  /** TestSummaryStatus.String */
  function StatusString(s: SummaryStatus): (r: string)
  {
    if s == StatusOk then "OK"
    else if s == StatusFailed then "FAILED"
    else if s == StatusError then "ERROR"
    else "UNKNOWN"
  }

  /** TestSummaryStatus.IsBad */
  predicate IsBad(s: SummaryStatus)
  {
    s == StatusFailed || s == StatusError
  }

  /** The terminal escape sequence that ends a colour. */
  const ColorReset: string := "\U{1b}[0m"

  /**
   * TestSummaryStatus.StringColor: a known status wrapped in its colour,
   * whose escape sequence `colorOf` gives; an unknown one in plain text.
   */
  function StringColor(s: SummaryStatus, colorOf: SummaryStatus -> string): (r: string)
  {
    if s in {StatusOk, StatusFailed, StatusError} then colorOf(s) + StatusString(s) + ColorReset
    else StatusString(s)
  }

  /**
   * The summary statuses: three distinct names for the three known values,
   * "UNKNOWN" for any other value; bad exactly when failed or erroneous;
   * and a coloured rendering that still contains the name.
   */
  lemma SummaryStatusTable(s: SummaryStatus, colorOf: SummaryStatus -> string)
    ensures StatusOk == 0 && StatusFailed == 1 && StatusError == 2
    ensures StatusString(s) == "UNKNOWN" <==> !(s in {StatusOk, StatusFailed, StatusError})
    ensures forall a, b :: 0 <= a <= 2 && 0 <= b <= 2 && StatusString(a) == StatusString(b) ==> a == b
    ensures StatusString(StatusOk) == "OK" && StatusString(StatusFailed) == "FAILED"
    ensures StatusString(StatusError) == "ERROR"
    ensures IsBad(s) <==> s == StatusFailed || s == StatusError
    ensures !IsBad(StatusOk) && !IsBad(999) && IsBad(StatusFailed) && IsBad(StatusError)
    ensures s in {StatusOk, StatusFailed, StatusError} ==> Contains(StringColor(s, colorOf), StatusString(s))
    ensures !(s in {StatusOk, StatusFailed, StatusError}) ==> StringColor(s, colorOf) == "UNKNOWN"
  {
    if s in {StatusOk, StatusFailed, StatusError} {
      ContainsMiddle(colorOf(s), StatusString(s), ColorReset);
    }
  }
}
