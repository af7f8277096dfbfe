/** The pure logic of the HTTP handlers around the engine: the name check of
    the single-test endpoint, its id, and the per-status counts of the suite
    endpoint's summary; and the single-test, suite and status handlers as
    methods over the shared orchestrator object. */
module Service {
  import opened Records
  import opened Registry
  import opened IdFormat
  import opened Executor
  import opened Suites
  import opened Engine

  /** A handler's reply: a value, or an HTTP error with its status code and detail. */
  datatype Response<T> = Ok(value: T) | HttpError(code: nat, detail: string)

  const BAD_REQUEST: nat := 400
  const INVALID_COMPONENT := "Invalid component"
  /** The test type the single-test endpoint runs when the request names none. */
  const DEFAULT_TEST_TYPE := "connectivity"

  /** The reply of the status endpoint. */
  datatype StatusReport = StatusReport(backendHealthy: bool, componentStatus: map<string, HealthStatus>,
                                       totalTestsRun: nat)

  /** The summary the suite endpoint returns. */
  datatype Summary = Summary(suiteName: string, totalTests: nat, passed: nat, failed: nat, skipped: nat,
                             results: seq<TestResult>)

  /** The results with the given status, in their original order: exactly the
      results with that status, and none when no result has it. */
  function WithStatus(results: seq<TestResult>, status: TestStatus): (filtered: seq<TestResult>)
    ensures |filtered| <= |results|
    ensures forall r :: r in filtered <==> r in results && r.status == status
    ensures (forall k :: 0 <= k < |results| ==> results[k].status != status) ==> filtered == []
  {
    if results == [] then []
    else
      var init, last := results[..|results| - 1], results[|results| - 1];
      assert forall r :: r in results <==> r in init || r == last;
      assert forall k :: 0 <= k < |init| ==> init[k] == results[k];
      WithStatus(init, status) + (if last.status == status then [last] else [])
  }

  /** Every result is passed, failed or skipped, so the three counts add up to the total. */
  lemma {:induction false} CountsPartition(results: seq<TestResult>)
    ensures |WithStatus(results, Passed)| + |WithStatus(results, Failed)| + |WithStatus(results, Skipped)| == |results|
  {
    if results != [] {
      CountsPartition(results[..|results| - 1]);
    }
  }

  /** The log receives the passed and failed results and nothing else, so its
      growth is the summary's passed plus failed count. */
  lemma {:induction false} LoggedCount(results: seq<TestResult>)
    ensures |Logged(results)| == |WithStatus(results, Passed)| + |WithStatus(results, Failed)|
  {
    if results != [] {
      LoggedCount(results[..|results| - 1]);
    }
  }

  /** The summary of a suite run. */
  function Summarize(suiteName: string, results: seq<TestResult>): (summary: Summary)
    ensures summary.suiteName == suiteName && summary.results == results
    ensures summary.totalTests == |results|
    ensures summary.passed + summary.failed + summary.skipped == summary.totalTests
    ensures summary.passed + summary.failed == |Logged(results)|
  {
    CountsPartition(results);
    LoggedCount(results);
    Summary(suiteName, |results|, |WithStatus(results, Passed)|, |WithStatus(results, Failed)|,
            |WithStatus(results, Skipped)|, results)
  }

  /** The single-test endpoint's name check: accepts exactly the five known
      names and answers any other name with a client error. */
  function ComponentCheck(component: string): (check: Response<()>)
    ensures check.Ok? <==> component in {"backend", "pkcs11", "csp", "ksp", "ctk"}
    ensures check.HttpError? ==> check == HttpError(BAD_REQUEST, INVALID_COMPONENT)
  {
    KnownComponents(component);
    if IsKnownComponent(component) then Ok(()) else HttpError(BAD_REQUEST, INVALID_COMPONENT)
  }

  /** The id of a manually requested test, `manual_{component}_{second}`,
      from the whole second of the request time: the prefix, then a digit
      string that reads back as that second. */
  function ManualId(component: string, second: nat): (id: string)
    ensures |id| > |component| + 8 && id[..|component| + 8] == "manual_" + component + "_"
    ensures AllDigits(id[|component| + 8..]) && ParseDecimal(id[|component| + 8..]) == second
  {
    DecimalRoundTrip(second);
    var r := "manual_" + component + "_" + Decimal(second);
    assert r[..|component| + 8] == "manual_" + component + "_" && r[|component| + 8..] == Decimal(second);
    r
  }

  /** Manual tests of one component requested in different seconds get different ids. */
  lemma ManualIdDistinct(component: string, second1: nat, second2: nat)
    requires second1 != second2
    ensures ManualId(component, second1) != ManualId(component, second2)
  {
  }

  /** The single-test endpoint: rejects an unknown component before anything
      runs; otherwise runs one test with a manual id.  A request that names no
      test type runs the default one. */
  method TestComponent(orchestrator: TestOrchestrator, component: string, testType: Option<string>, second: nat,
                       verdict: Verdict, elapsed: real)
    returns (response: Response<TestResult>)
    modifies orchestrator
    ensures !IsKnownComponent(component) ==>
      response == HttpError(BAD_REQUEST, INVALID_COMPONENT) && orchestrator.State() == old(orchestrator.State())
    ensures IsKnownComponent(component) ==>
      var runType := if testType.Some? then testType.value else DEFAULT_TEST_TYPE;
      response == Ok(Execute(ManualId(component, second), component, runType, verdict, elapsed)) &&
      orchestrator.State() == Record(old(orchestrator.State()), response.value)
  {
    var check := ComponentCheck(component);
    if check.HttpError? {
      return HttpError(check.code, check.detail);
    }
    var runType := if testType.Some? then testType.value else DEFAULT_TEST_TYPE;
    var testId := ManualId(component, second);
    var result := orchestrator.RunIntegrationTest(testId, component, runType, verdict, elapsed);
    response := Ok(result);
  }

  /** The status endpoint: runs the backend probe, then reports its outcome,
      the status table and the number of logged results. */
  method GetStatus(orchestrator: TestOrchestrator, fault: Option<string>) returns (report: StatusReport)
    modifies orchestrator
    ensures report.backendHealthy <==> fault.None?
    ensures report.componentStatus == old(orchestrator.componentStatus)["backend" := BackendRecord(fault)]
    ensures report.totalTestsRun == |old(orchestrator.testResults)|
    ensures orchestrator.State() ==
      old(orchestrator.State()).(status := report.componentStatus,
                                 health := old(orchestrator.healthChecksTotal) + multiset{("backend", BackendRecord(fault).state)})
  {
    var healthy := orchestrator.CheckBackendHealth(fault);
    report := StatusReport(healthy, orchestrator.componentStatus, |orchestrator.testResults|);
  }

  /** The suite endpoint: runs the named suite and summarises its results. */
  method RunTestSuiteHandler(orchestrator: TestOrchestrator, suiteName: string,
                             oracle: nat -> Verdict, clock: nat -> real)
    returns (summary: Summary)
    modifies orchestrator
    ensures summary == Summarize(suiteName, RunResults(suiteName, oracle, clock))
    ensures orchestrator.State() == RecordAll(old(orchestrator.State()), summary.results)
  {
    var results := orchestrator.RunTestSuite(suiteName, oracle, clock);
    summary := Summarize(suiteName, results);
  }

  /** A suite summary counts one test per (component, test type) pair of the
      suite, each counted under exactly one status. */
  lemma SuiteSummaryTotals(suiteName: string, oracle: nat -> Verdict, clock: nat -> real)
    ensures var suite, summary := Lookup(suiteName), Summarize(suiteName, RunResults(suiteName, oracle, clock));
      summary.totalTests == |suite.components| * |suite.tests| &&
      summary.passed + summary.failed + summary.skipped == summary.totalTests
  {
    RunLength(suiteName, Lookup(suiteName), oracle, clock);
  }

  /** The basic connectivity summary has six tests and none of them skipped. */
  lemma BasicConnectivitySummary(oracle: nat -> Verdict, clock: nat -> real)
    ensures var summary := Summarize("basic_connectivity", RunResults("basic_connectivity", oracle, clock));
      summary.totalTests == 6 && summary.skipped == 0 && summary.passed + summary.failed == 6
  {
    var results := RunResults("basic_connectivity", oracle, clock);
    BasicConnectivityNotSkipped(oracle, clock);
  }
}
