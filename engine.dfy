/** The orchestration engine: an object holding the result log and the
    component status table, with the probes, the single-test executor and the
    suite runner as methods that update them in place.  The two Prometheus
    counters are kept as ghost multisets of label increments. */
module Engine {
  import opened Records
  import opened Registry
  import opened IdFormat
  import opened Executor
  import opened Suites

  /** The side effects of the engine: the result log, the component status
      table and the label increments of the two counters. */
  datatype Ledger = Ledger(log: seq<TestResult>, status: map<string, HealthStatus>,
                           tests: multiset<TestLabel>, health: multiset<HealthLabel>)

  /** The ledger after one more execution r: logged unless skipped, its
      component probed, one increment on each counter. */
  function Record(ledger: Ledger, r: TestResult): Ledger
  {
    Ledger(ledger.log + (if r.status == Skipped then [] else [r]),
           Probe(ledger.status, r.component),
           ledger.tests + multiset{LabelOf(r)},
           ledger.health + multiset{(r.component, ProbeState(r.component))})
  }

  /** The ledger after the executions in results, in order. */
  function RecordAll(ledger: Ledger, results: seq<TestResult>): Ledger
  {
    if results == [] then ledger
    else Record(RecordAll(ledger, results[..|results| - 1]), results[|results| - 1])
  }

  /** Replaying executions appends the not-skipped ones to the log. */
  lemma {:induction false} RecordAllLog(ledger: Ledger, results: seq<TestResult>)
    ensures RecordAll(ledger, results).log == ledger.log + Logged(results)
  {
    if results == [] {
      assert ledger.log + Logged(results) == ledger.log;
    } else {
      var rs, r := results[..|results| - 1], results[|results| - 1];
      RecordAllLog(ledger, rs);
      if r.status != Skipped {
        assert ledger.log + Logged(rs) + [r] == ledger.log + (Logged(rs) + [r]);
      }
    }
  }

  /** Replaying executions probes their components, in order. */
  lemma {:induction false} RecordAllStatus(ledger: Ledger, results: seq<TestResult>)
    ensures RecordAll(ledger, results).status == ProbeAll(ledger.status, ComponentsOf(results))
  {
    if results != [] {
      var rs, r := results[..|results| - 1], results[|results| - 1];
      assert results == rs + [r];
      RecordAllStatus(ledger, rs);
      AppendOne(rs, r, ledger.status);
    }
  }

  /** Replaying executions adds one label per execution to each counter. */
  lemma {:induction false} RecordAllCounters(ledger: Ledger, results: seq<TestResult>)
    ensures RecordAll(ledger, results).tests == ledger.tests + TestLabels(results)
    ensures RecordAll(ledger, results).health == ledger.health + HealthLabels(results)
  {
    if results != [] {
      RecordAllCounters(ledger, results[..|results| - 1]);
    }
  }

  /** Replaying executions appends the logged ones to the log, probes their
      components in order, and adds their labels to the counters. */
  lemma RecordAllEffect(ledger: Ledger, results: seq<TestResult>)
    ensures RecordAll(ledger, results) ==
      Ledger(ledger.log + Logged(results),
             ProbeAll(ledger.status, ComponentsOf(results)),
             ledger.tests + TestLabels(results),
             ledger.health + HealthLabels(results))
  {
    RecordAllLog(ledger, results);
    RecordAllStatus(ledger, results);
    RecordAllCounters(ledger, results);
  }

  /** Executions only append to the log and only add counter increments:
      earlier log entries stay in place and no counter goes down. */
  lemma LedgerGrows(ledger: Ledger, results: seq<TestResult>)
    ensures |ledger.log| <= |RecordAll(ledger, results).log|
    ensures RecordAll(ledger, results).log[..|ledger.log|] == ledger.log
    ensures ledger.tests <= RecordAll(ledger, results).tests
    ensures ledger.health <= RecordAll(ledger, results).health
  {
    RecordAllLog(ledger, results);
    RecordAllCounters(ledger, results);
    assert (ledger.log + Logged(results))[..|ledger.log|] == ledger.log;
  }

  /** The ledger a run of suite under name has built up from start when it
      reaches (i, j): one Record per execution, in run order. */
  ghost function LedgerAt(start: Ledger, name: string, suite: Suite, oracle: nat -> Verdict, clock: nat -> real,
                          i: nat, j: nat): Ledger
    requires Reached(suite, i, j)
    decreases i, j
  {
    if j > 0 then Record(LedgerAt(start, name, suite, oracle, clock, i, j - 1), Step(name, suite, oracle, clock, i, j - 1))
    else if i == 0 then start
    else LedgerAt(start, name, suite, oracle, clock, i - 1, |suite.tests|)
  }

  /** The ledger at a point of a run is the replay of the results collected so far. */
  lemma {:induction false} LedgerAtReplays(start: Ledger, name: string, suite: Suite, oracle: nat -> Verdict,
                                           clock: nat -> real, i: nat, j: nat)
    requires Reached(suite, i, j)
    ensures LedgerAt(start, name, suite, oracle, clock, i, j) == RecordAll(start, Prefix(name, suite, oracle, clock, i, j))
    decreases i, j
  {
    if j > 0 {
      LedgerAtReplays(start, name, suite, oracle, clock, i, j - 1);
      var p := Prefix(name, suite, oracle, clock, i, j - 1);
      assert (p + [Step(name, suite, oracle, clock, i, j - 1)])[..|p|] == p;
    } else if i > 0 {
      LedgerAtReplays(start, name, suite, oracle, clock, i - 1, |suite.tests|);
    }
  }

  class TestOrchestrator {
    /** Results of executed (not skipped) tests, in execution order. */
    var testResults: seq<TestResult>
    /** Last probe outcome per component name. */
    var componentStatus: map<string, HealthStatus>
    /** Increments of the tests counter, by (test_type, component, status). */
    ghost var testsTotal: multiset<TestLabel>
    /** Increments of the health-check counter, by (component, status). */
    ghost var healthChecksTotal: multiset<HealthLabel>

    constructor ()
      ensures testResults == [] && componentStatus == map[]
      ensures testsTotal == multiset{} && healthChecksTotal == multiset{}
    {
      testResults := [];
      componentStatus := map[];
      testsTotal := multiset{};
      healthChecksTotal := multiset{};
    }

    /** Backend liveness probe.  fault is the error the health call raised, if
        any; it is absorbed into the status table and the boolean result. */
    method CheckBackendHealth(fault: Option<string>) returns (healthy: bool)
      modifies this
      ensures healthy <==> fault.None?
      ensures componentStatus == old(componentStatus)["backend" := BackendRecord(fault)]
      ensures healthChecksTotal == old(healthChecksTotal) + multiset{("backend", BackendRecord(fault).state)}
      ensures testResults == old(testResults) && testsTotal == old(testsTotal)
    {
      match fault
      case None =>
        componentStatus := componentStatus["backend" := HealthStatus("backend", Healthy, BACKEND_DETAILS)];
        healthChecksTotal := healthChecksTotal + multiset{("backend", Healthy)};
        healthy := true;
      case Some(error) =>
        componentStatus := componentStatus["backend" := HealthStatus("backend", Unhealthy, error)];
        healthChecksTotal := healthChecksTotal + multiset{("backend", Unhealthy)};
        healthy := false;
    }

    /** Component probe: looks the name up in the availability table and
        overwrites that component's status entry, and only that one. */
    method CheckComponentAvailability(component: string) returns (isAvailable: bool)
      modifies this
      ensures isAvailable == IsAvailable(component)
      ensures componentStatus == Probe(old(componentStatus), component)
      ensures componentStatus[component].state == (if isAvailable then Available else NotReady)
      ensures healthChecksTotal == old(healthChecksTotal) + multiset{(component, ProbeState(component))}
      ensures testResults == old(testResults) && testsTotal == old(testsTotal)
    {
      isAvailable := if component in AVAILABILITY_TABLE then AVAILABILITY_TABLE[component] else false;
      var state := if isAvailable then Available else NotReady;
      componentStatus := componentStatus[component := HealthStatus(component, state, PROBE_DETAILS)];
      healthChecksTotal := healthChecksTotal + multiset{(component, state)};
    }

    /** Runs one test.  The probe happens first; a component that is not
        available yields a skipped result that is not logged.  Otherwise the
        verdict decides passed or failed, a fault becomes a failed result, and
        the result is appended to the log.  Nothing is ever raised. */
    method RunIntegrationTest(testId: string, component: string, testType: string,
                              verdict: Verdict, elapsed: real) returns (result: TestResult)
      modifies this
      ensures result == Execute(testId, component, testType, verdict, elapsed)
      ensures State() == Record(old(State()), result)
    {
      var _ := CheckComponentAvailability(component);
      if componentStatus[component].state != Available {
        result := TestResult(testId, component, testType, Skipped, SKIP_DURATION, SkipDetails(component));
        testsTotal := testsTotal + multiset{(testType, component, Skipped)};
        return;
      }
      match verdict
      case Fault(message) =>
        result := TestResult(testId, component, testType, Failed, elapsed, FAULT_PREFIX + message);
        testsTotal := testsTotal + multiset{(testType, component, Failed)};
        testResults := testResults + [result];
      case _ =>
        var isSuccess := verdict == Pass;
        var status := if isSuccess then Passed else Failed;
        var details := "Test " + testType + (if isSuccess then " passed" else " failed") + " on " + component;
        if !isSuccess {
          details := details + NEEDS_WORK;
        }
        result := TestResult(testId, component, testType, status, elapsed, details);
        testsTotal := testsTotal + multiset{(testType, component, status)};
        testResults := testResults + [result];
    }

    /** The current side effects of the orchestrator. */
    ghost function State(): Ledger
      reads this
    {
      Ledger(testResults, componentStatus, testsTotal, healthChecksTotal)
    }

    /** Runs a named suite: components outer, test types inner, the n-th pair
        (from 1) getting id `{suiteName}_{n:03d}`.  oracle(k) and clock(k) are
        the verdict and duration of the k-th execution (from 0).  An unknown
        suite name runs nothing. */
    method RunTestSuite(suiteName: string, oracle: nat -> Verdict, clock: nat -> real)
      returns (results: seq<TestResult>)
      modifies this
      ensures results == RunResults(suiteName, oracle, clock)
      ensures State() == RecordAll(old(State()), results)
    {
      var suite := Lookup(suiteName);
      results := RunSuite(suiteName, suite, oracle, clock);
      LedgerAtReplays(old(State()), suiteName, suite, oracle, clock, |suite.components|, 0);
    }

    /** The outer loop of a suite run over the definition suite. */
    method RunSuite(suiteName: string, suite: Suite, oracle: nat -> Verdict, clock: nat -> real)
      returns (results: seq<TestResult>)
      modifies this
      ensures results == Run(suiteName, suite, oracle, clock)
      ensures State() == LedgerAt(old(State()), suiteName, suite, oracle, clock, |suite.components|, 0)
    {
      ghost var start := State();
      var components := suite.components;
      results := [];
      var testIdCounter := 0;
      var i := 0;
      while i < |components|
        invariant 0 <= i <= |components|
        invariant testIdCounter == Mul(i, |suite.tests|)
        invariant results == Prefix(suiteName, suite, oracle, clock, i, 0)
        invariant State() == LedgerAt(start, suiteName, suite, oracle, clock, i, 0)
      {
        results, testIdCounter := RunComponentTests(suiteName, suite, oracle, clock, i, results, testIdCounter, start);
        i := i + 1;
      }
    }

    /** The inner loop of a suite run: every test type of the suite against
        component i, continuing the id counter and the collected results. */
    method RunComponentTests(suiteName: string, suite: Suite, oracle: nat -> Verdict, clock: nat -> real, i: nat,
                             done: seq<TestResult>, counter: nat, ghost start: Ledger)
      returns (results: seq<TestResult>, testIdCounter: nat)
      requires i < |suite.components|
      requires counter == Mul(i, |suite.tests|)
      requires done == Prefix(suiteName, suite, oracle, clock, i, 0)
      requires State() == LedgerAt(start, suiteName, suite, oracle, clock, i, 0)
      modifies this
      ensures testIdCounter == Mul(i + 1, |suite.tests|)
      ensures results == Prefix(suiteName, suite, oracle, clock, i + 1, 0)
      ensures State() == LedgerAt(start, suiteName, suite, oracle, clock, i + 1, 0)
    {
      var component := suite.components[i];
      var tests := suite.tests;
      results, testIdCounter := done, counter;
      var j := 0;
      while j < |tests|
        invariant 0 <= j <= |tests|
        invariant testIdCounter == Mul(i, |tests|) + j
        invariant results == Prefix(suiteName, suite, oracle, clock, i, j)
        invariant State() == LedgerAt(start, suiteName, suite, oracle, clock, i, j)
      {
        var position := testIdCounter;
        testIdCounter := testIdCounter + 1;
        var testId := TestId(suiteName, testIdCounter);
        var result := RunIntegrationTest(testId, component, tests[j], VerdictAt(oracle, position), DurationAt(clock, position));
        PrefixStep(suiteName, suite, oracle, clock, i, j, results, position, result);
        results := results + [result];
        j := j + 1;
      }
    }
  }
}
