/** The single-test executor as a function of its inputs: the skip gate, the
    oracle's verdict and the fault path; and the log and metric entries that
    one execution adds. */
module Executor {
  import opened Records
  import opened Registry

  const SKIP_DURATION: real := 0.1
  const FAULT_PREFIX := "Test execution failed: "
  const NEEDS_WORK := " - Component needs additional implementation work"

  function SkipDetails(component: string): string
  {
    "Component " + component + " not ready for testing"
  }

  function OutcomeDetails(testType: string, component: string, passed: bool): string
  {
    "Test " + testType + (if passed then " passed" else " failed") + " on " + component
    + (if passed then "" else NEEDS_WORK)
  }

  /** The result of running test testType with id testId against component,
      where the oracle decides the assertion outcome and elapsed is the
      measured duration. */
  function Execute(testId: string, component: string, testType: string, verdict: Verdict, elapsed: real): (r: TestResult)
    ensures r.testId == testId && r.component == component && r.testType == testType
  {
    if ProbeState(component) != Available then
      TestResult(testId, component, testType, Skipped, SKIP_DURATION, SkipDetails(component))
    else
      match verdict
      case Fault(message) =>
        TestResult(testId, component, testType, Failed, elapsed, FAULT_PREFIX + message)
      case _ =>
        var passed := verdict == Pass;
        TestResult(testId, component, testType, if passed then Passed else Failed, elapsed,
                   OutcomeDetails(testType, component, passed))
  }

  /** What an execution reports: skipped exactly when the component is not
      available; otherwise passed exactly when the oracle says so, with the
      measured duration, and a fault becomes a failure carrying its message. */
  lemma ExecuteOutcome(testId: string, component: string, testType: string, verdict: Verdict, elapsed: real)
    ensures var r := Execute(testId, component, testType, verdict, elapsed);
      // skip gate: no test runs against a component that is not available
      && (r.status == Skipped <==> !IsAvailable(component))
      && (!IsAvailable(component) ==> r.details == SkipDetails(component) && r.durationSeconds == SKIP_DURATION)
      // an admitted test passes exactly when the oracle says so
      && (IsAvailable(component) ==>
            (r.status == Passed <==> verdict == Pass) &&
            (r.status == Failed <==> verdict != Pass) &&
            r.durationSeconds == elapsed)
      // a fault becomes a failed result carrying the fault's message
      && (IsAvailable(component) && verdict.Fault? ==> r.details == FAULT_PREFIX + verdict.message)
      && (IsAvailable(component) && !verdict.Fault? ==>
            r.details == OutcomeDetails(testType, component, verdict == Pass))
  {
  }

  /** The result log of a sequence of executions: exactly the results that
      were not skipped, in order. */
  function Logged(results: seq<TestResult>): (log: seq<TestResult>)
    ensures |log| <= |results|
    ensures forall r :: r in log <==> r in results && r.status != Skipped
  {
    if results == [] then []
    else
      var init, last := results[..|results| - 1], results[|results| - 1];
      assert forall r :: r in results <==> r in init || r == last;
      Logged(init) + (if last.status == Skipped then [] else [last])
  }

  /** The tests counter label a result increments. */
  function LabelOf(r: TestResult): TestLabel
  {
    (r.testType, r.component, r.status)
  }

  /** The tests counter increments of a sequence of results. */
  function TestLabels(results: seq<TestResult>): (labels: multiset<TestLabel>)
    ensures |labels| == |results|
  {
    if results == [] then multiset{}
    else TestLabels(results[..|results| - 1]) + multiset{LabelOf(results[|results| - 1])}
  }

  /** The health-check counter increments of the probes made for a sequence of results. */
  function HealthLabels(results: seq<TestResult>): (labels: multiset<HealthLabel>)
    ensures |labels| == |results|
  {
    if results == [] then multiset{}
    else
      var c := results[|results| - 1].component;
      HealthLabels(results[..|results| - 1]) + multiset{(c, ProbeState(c))}
  }

  /** The tests counter holds exactly the labels of the executions: every
      execution's label is in it, and every label in it is some execution's. */
  lemma {:induction false} TestLabelsContents(results: seq<TestResult>)
    ensures forall k :: 0 <= k < |results| ==> LabelOf(results[k]) in TestLabels(results)
    ensures forall l :: l in TestLabels(results) ==> exists k :: 0 <= k < |results| && LabelOf(results[k]) == l
  {
    if results != [] {
      var init, last := results[..|results| - 1], results[|results| - 1];
      TestLabelsContents(init);
      forall l | l in TestLabels(results) ensures exists k :: 0 <= k < |results| && LabelOf(results[k]) == l {
        if l != LabelOf(last) {
          var k :| 0 <= k < |init| && LabelOf(init[k]) == l;
          assert results[k] == init[k];
        }
      }
      forall k | 0 <= k < |init| ensures LabelOf(results[k]) in TestLabels(results) {
        assert results[k] == init[k];
      }
    }
  }

  /** The component probed for each result, in order. */
  function ComponentsOf(results: seq<TestResult>): (components: seq<string>)
    ensures |components| == |results|
    ensures forall k :: 0 <= k < |results| ==> components[k] == results[k].component
  {
    if results == [] then []
    else ComponentsOf(results[..|results| - 1]) + [results[|results| - 1].component]
  }

  /** Appending one result extends each derived view by that result alone. */
  lemma AppendOne(results: seq<TestResult>, r: TestResult, status: map<string, HealthStatus>)
    ensures Logged(results + [r]) == Logged(results) + (if r.status == Skipped then [] else [r])
    ensures ComponentsOf(results + [r]) == ComponentsOf(results) + [r.component]
    ensures ProbeAll(status, ComponentsOf(results + [r])) == Probe(ProbeAll(status, ComponentsOf(results)), r.component)
    ensures TestLabels(results + [r]) == TestLabels(results) + multiset{LabelOf(r)}
    ensures HealthLabels(results + [r]) == HealthLabels(results) + multiset{(r.component, ProbeState(r.component))}
  {
    assert (results + [r])[..|results|] == results;
    assert (ComponentsOf(results) + [r.component])[..|results|] == ComponentsOf(results);
  }
}
