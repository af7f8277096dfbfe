/** Suite runner specification: the static suite catalogue, the
    component-outer / test-inner expansion, and the results a suite run
    produces as a function of the test oracle and the clock. */
module Suites {
  import opened Records
  import opened Registry
  import opened IdFormat
  import opened Executor

  /** A suite definition: the components, outer loop, and the test types, inner loop. */
  datatype Suite = Suite(components: seq<string>, tests: seq<string>)

  const CATALOG: map<string, Suite> := map[
    "basic_connectivity" := Suite(["backend", "pkcs11", "ctk"], ["connectivity", "health_check"]),
    "cryptographic_operations" := Suite(["backend", "pkcs11"], ["key_generation", "signing", "verification"]),
    "cross_platform" := Suite(["pkcs11", "ctk"], ["key_generation", "signing", "encryption"])
  ]

  /** The definition of a suite; an unknown name has no components and no tests. */
  function Lookup(name: string): (suite: Suite)
    ensures name !in CATALOG ==> suite.components == [] && suite.tests == []
    ensures name in CATALOG ==> |suite.components| > 0 && |suite.tests| > 0
  {
    if name in CATALOG then CATALOG[name] else Suite([], [])
  }

  /** The test types of one component as (component, test type) pairs. */
  function Row(component: string, tests: seq<string>): (row: seq<(string, string)>)
    ensures |row| == |tests|
    ensures forall j :: 0 <= j < |tests| ==> row[j] == (component, tests[j])
  {
    if tests == [] then [] else [(component, tests[0])] + Row(component, tests[1..])
  }

  /** a * b by repeated addition; keeps the index arithmetic of the suite
      runner linear for the solver.  MulIsProduct relates it to `*`. */
  function Mul(a: nat, b: nat): nat
  {
    if a == 0 then 0 else b + Mul(a - 1, b)
  }

  lemma {:induction false} MulIsProduct(a: nat, b: nat)
    ensures Mul(a, b) == a * b
  {
    if a > 0 {
      MulIsProduct(a - 1, b);
    }
  }

  /** The (component, test type) pairs of a suite in execution order. */
  function Pairs(components: seq<string>, tests: seq<string>): (pairs: seq<(string, string)>)
    ensures |pairs| == Mul(|components|, |tests|)
  {
    if components == [] then [] else Row(components[0], tests) + Pairs(components[1..], tests)
  }

  /** Pair Mul(i, |tests|) + j is component i with test j. */
  lemma {:induction false} PairsAt(components: seq<string>, tests: seq<string>, i: nat, j: nat)
    requires i < |components| && j < |tests|
    ensures Mul(i, |tests|) + j < |Pairs(components, tests)|
    ensures Pairs(components, tests)[Mul(i, |tests|) + j] == (components[i], tests[j])
  {
    var row, rest := Row(components[0], tests), components[1..];
    assert Pairs(components, tests) == row + Pairs(rest, tests);
    if i > 0 {
      PairsAt(rest, tests, i - 1, j);
      assert Mul(i, |tests|) + j == |row| + (Mul(i - 1, |tests|) + j);
      assert rest[i - 1] == components[i];
    }
  }

  /** Splits an index below Mul(n, t) into its row k / t and column k % t. */
  lemma Decompose(k: nat, t: nat, n: nat)
    requires k < Mul(n, t)
    ensures t > 0 && k / t < n && k % t < t && Mul(k / t, t) + k % t == k
  {
    MulIsProduct(n, t);
    MulIsProduct(k / t, t);
    assert t > 0;
    var i, j := k / t, k % t;
    assert k == i * t + j && j < t;
  }

  /** Pair k is component k / |tests| with test k % |tests|. */
  lemma PairsIndex(components: seq<string>, tests: seq<string>, k: nat)
    requires k < |Pairs(components, tests)|
    ensures |tests| > 0 && k / |tests| < |components|
    ensures Pairs(components, tests)[k] == (components[k / |tests|], tests[k % |tests|])
  {
    Decompose(k, |tests|, |components|);
    PairsAt(components, tests, k / |tests|, k % |tests|);
  }

  /** Distinct (row, column) positions give distinct indices Mul(i, t) + j. */
  lemma {:induction false} PositionUnique(t: nat, i1: nat, j1: nat, i2: nat, j2: nat)
    requires j1 < t && j2 < t && Mul(i1, t) + j1 == Mul(i2, t) + j2
    ensures i1 == i2 && j1 == j2
  {
    if i1 > 0 && i2 > 0 {
      PositionUnique(t, i1 - 1, j1, i2 - 1, j2);
    }
  }

  /** (i, j) is a point a suite run reaches: before test j of component i, or
      the end of the run. */
  predicate Reached(suite: Suite, i: nat, j: nat)
  {
    (i < |suite.components| && j <= |suite.tests|) || (i == |suite.components| && j == 0)
  }

  /** The oracle's verdict for execution k of a run.  Step and the suite
      runner's loop both name the verdict through this function (and the
      duration through DurationAt), so the loop's call matches Step's term
      without the solver relating two applications of the arrow. */
  function VerdictAt(oracle: nat -> Verdict, k: nat): Verdict
  {
    oracle(k)
  }

  /** The clock's duration for execution k of a run. */
  function DurationAt(clock: nat -> real, k: nat): real
  {
    clock(k)
  }

  /** The execution of test j on component i in a run of suite under name:
      it is execution k = Mul(i, |tests|) + j (from 0), with id
      `{name}_{k+1:03d}`, verdict oracle(k) and duration clock(k). */
  function Step(name: string, suite: Suite, oracle: nat -> Verdict, clock: nat -> real, i: nat, j: nat): TestResult
    requires i < |suite.components| && j < |suite.tests|
  {
    var k := Mul(i, |suite.tests|) + j;
    Execute(TestId(name, k + 1), suite.components[i], suite.tests[j], VerdictAt(oracle, k), DurationAt(clock, k))
  }

  /** The results a run has collected when it reaches (i, j). */
  function Prefix(name: string, suite: Suite, oracle: nat -> Verdict, clock: nat -> real, i: nat, j: nat)
    : (results: seq<TestResult>)
    requires Reached(suite, i, j)
    ensures |results| == Mul(i, |suite.tests|) + j
    decreases i, j
  {
    if j > 0 then Prefix(name, suite, oracle, clock, i, j - 1) + [Step(name, suite, oracle, clock, i, j - 1)]
    else if i == 0 then []
    else Prefix(name, suite, oracle, clock, i - 1, |suite.tests|)
  }

  /** One more execution, of test j on component i, extends the collected results. */
  lemma PrefixStep(name: string, suite: Suite, oracle: nat -> Verdict, clock: nat -> real, i: nat, j: nat,
                   results: seq<TestResult>, k: nat, r: TestResult)
    requires i < |suite.components| && j < |suite.tests| && k == Mul(i, |suite.tests|) + j
    requires results == Prefix(name, suite, oracle, clock, i, j)
    requires r == Execute(TestId(name, k + 1), suite.components[i], suite.tests[j], VerdictAt(oracle, k), DurationAt(clock, k))
    ensures r == Step(name, suite, oracle, clock, i, j)
    ensures results + [r] == Prefix(name, suite, oracle, clock, i, j + 1)
  {
  }

  /** The results of a whole run of suite under name, in order. */
  function Run(name: string, suite: Suite, oracle: nat -> Verdict, clock: nat -> real): seq<TestResult>
  {
    Prefix(name, suite, oracle, clock, |suite.components|, 0)
  }

  /** The results of running the catalogue suite called name. */
  function RunResults(name: string, oracle: nat -> Verdict, clock: nat -> real): seq<TestResult>
  {
    Run(name, Lookup(name), oracle, clock)
  }

  /** A collected result sits at the index of its (component, test) position. */
  lemma {:induction false} PrefixAt(name: string, suite: Suite, oracle: nat -> Verdict, clock: nat -> real,
                                    i: nat, j: nat, i': nat, j': nat)
    requires Reached(suite, i, j) && i' < |suite.components| && j' < |suite.tests|
    requires Mul(i', |suite.tests|) + j' < Mul(i, |suite.tests|) + j
    ensures Prefix(name, suite, oracle, clock, i, j)[Mul(i', |suite.tests|) + j'] ==
      Step(name, suite, oracle, clock, i', j')
    decreases i, j
  {
    var t := |suite.tests|;
    if j > 0 {
      if Mul(i', t) + j' == Mul(i, t) + j - 1 {
        PositionUnique(t, i', j', i, j - 1);
      } else {
        PrefixAt(name, suite, oracle, clock, i, j - 1, i', j');
      }
    } else if i > 0 {
      PrefixAt(name, suite, oracle, clock, i - 1, t, i', j');
    }
  }

  /** Length of a run: |components| * |tests| of its definition. */
  lemma RunLength(name: string, suite: Suite, oracle: nat -> Verdict, clock: nat -> real)
    ensures |Run(name, suite, oracle, clock)| == |suite.components| * |suite.tests|
  {
    MulIsProduct(|suite.components|, |suite.tests|);
  }

  /** Shape of a run: result k comes from component k / |tests| and test
      k % |tests| (returned as i and j) and has id `{name}_{k+1:03d}`. */
  lemma RunShape(name: string, suite: Suite, oracle: nat -> Verdict, clock: nat -> real, k: nat)
    returns (i: nat, j: nat)
    requires k < |Run(name, suite, oracle, clock)|
    ensures |suite.tests| > 0 && i == k / |suite.tests| && j == k % |suite.tests|
    ensures i < |suite.components| && j < |suite.tests|
    ensures Run(name, suite, oracle, clock)[k] ==
      Execute(TestId(name, k + 1), suite.components[i], suite.tests[j], oracle(k), clock(k))
  {
    Decompose(k, |suite.tests|, |suite.components|);
    i, j := k / |suite.tests|, k % |suite.tests|;
    PrefixAt(name, suite, oracle, clock, |suite.components|, 0, i, j);
  }

  /** The run executes exactly the cross product of components and tests, in
      the order of Pairs (components outer, tests inner). */
  lemma RunFollowsPairs(name: string, suite: Suite, oracle: nat -> Verdict, clock: nat -> real, k: nat)
    requires k < |Run(name, suite, oracle, clock)|
    ensures |Pairs(suite.components, suite.tests)| == |Run(name, suite, oracle, clock)|
    ensures var pair := Pairs(suite.components, suite.tests)[k];
      Run(name, suite, oracle, clock)[k] == Execute(TestId(name, k + 1), pair.0, pair.1, oracle(k), clock(k))
  {
    var i, j := RunShape(name, suite, oracle, clock, k);
    PairsIndex(suite.components, suite.tests, k);
  }

  /** The skip gate over a run: an execution is skipped exactly when its
      component is not available. */
  lemma RunSkipGate(name: string, suite: Suite, oracle: nat -> Verdict, clock: nat -> real, k: nat)
    requires k < |Run(name, suite, oracle, clock)|
    ensures Run(name, suite, oracle, clock)[k].status == Skipped <==>
      !IsAvailable(Run(name, suite, oracle, clock)[k].component)
  {
    var i, j := RunShape(name, suite, oracle, clock, k);
    ExecuteOutcome(TestId(name, k + 1), suite.components[i], suite.tests[j], oracle(k), clock(k));
  }

  /** All ids of one run are distinct. */
  lemma RunIdsDistinct(name: string, suite: Suite, oracle: nat -> Verdict, clock: nat -> real, a: nat, b: nat)
    requires a < |Run(name, suite, oracle, clock)| && b < |Run(name, suite, oracle, clock)|
    requires a != b
    ensures Run(name, suite, oracle, clock)[a].testId != Run(name, suite, oracle, clock)[b].testId
  {
    var _, _ := RunShape(name, suite, oracle, clock, a);
    var _, _ := RunShape(name, suite, oracle, clock, b);
    TestIdInjective(name, a + 1, b + 1);
  }

  /** Numbering restarts at 1 on every run, so two runs of one suite reuse the
      same ids whatever the oracle and the clock do. */
  lemma RunIdsRepeat(name: string, suite: Suite, oracle1: nat -> Verdict, clock1: nat -> real,
                     oracle2: nat -> Verdict, clock2: nat -> real, k: nat)
    requires k < |Run(name, suite, oracle1, clock1)|
    ensures k < |Run(name, suite, oracle2, clock2)|
    ensures Run(name, suite, oracle1, clock1)[k].testId == Run(name, suite, oracle2, clock2)[k].testId
  {
    var _, _ := RunShape(name, suite, oracle1, clock1, k);
    var _, _ := RunShape(name, suite, oracle2, clock2, k);
  }

  /** An unknown suite runs nothing. */
  lemma UnknownSuiteRunsNothing(name: string, oracle: nat -> Verdict, clock: nat -> real)
    requires name !in CATALOG
    ensures RunResults(name, oracle, clock) == []
  {
  }

  /** The basic_connectivity suite runs six tests with ids _001 to _006
      (DigitChar(d) is the character of digit d). */
  lemma BasicConnectivityIds(oracle: nat -> Verdict, clock: nat -> real)
    ensures var r := RunResults("basic_connectivity", oracle, clock);
      |r| == 6 && forall k :: 0 <= k < 6 ==> r[k].testId == "basic_connectivity_00" + [DigitChar(k + 1)]
  {
    var name := "basic_connectivity";
    BasicConnectivityDefinition();
    var suite := Lookup(name);
    var r := Run(name, suite, oracle, clock);
    forall k | 0 <= k < 6 ensures r[k].testId == "basic_connectivity_00" + [DigitChar(k + 1)] {
      var _, _ := RunShape(name, suite, oracle, clock, k);
      BasicConnectivityIdText(k + 1);
    }
  }

  /** The id of the n-th execution (n < 10) of basic_connectivity. */
  lemma BasicConnectivityIdText(n: nat)
    requires n < 10
    ensures TestId("basic_connectivity", n) == "basic_connectivity_00" + [DigitChar(n)]
  {
    OneDigitPad(n);
    assert "basic_connectivity" + "_" + ("00" + [DigitChar(n)]) == "basic_connectivity_00" + [DigitChar(n)];
  }

  /** The basic_connectivity suite runs components outer and test types inner. */
  lemma BasicConnectivityOrder(oracle: nat -> Verdict, clock: nat -> real)
    ensures var r := RunResults("basic_connectivity", oracle, clock);
      |r| == 6 &&
      [r[0].component, r[1].component, r[2].component, r[3].component, r[4].component, r[5].component] ==
        ["backend", "backend", "pkcs11", "pkcs11", "ctk", "ctk"] &&
      [r[0].testType, r[1].testType, r[2].testType, r[3].testType, r[4].testType, r[5].testType] ==
        ["connectivity", "health_check", "connectivity", "health_check", "connectivity", "health_check"]
  {
    var name := "basic_connectivity";
    BasicConnectivityDefinition();
    var suite := Lookup(name);
    var _, _ := RunShape(name, suite, oracle, clock, 0);
    var _, _ := RunShape(name, suite, oracle, clock, 1);
    var _, _ := RunShape(name, suite, oracle, clock, 2);
    var _, _ := RunShape(name, suite, oracle, clock, 3);
    var _, _ := RunShape(name, suite, oracle, clock, 4);
    var _, _ := RunShape(name, suite, oracle, clock, 5);
  }

  /** Every component of basic_connectivity is available, so nothing is skipped. */
  lemma BasicConnectivityNotSkipped(oracle: nat -> Verdict, clock: nat -> real)
    ensures var r := RunResults("basic_connectivity", oracle, clock);
      |r| == 6 && forall k :: 0 <= k < 6 ==> r[k].status != Skipped
  {
    var name := "basic_connectivity";
    BasicConnectivityDefinition();
    var suite := Lookup(name);
    var r := Run(name, suite, oracle, clock);
    BasicConnectivityOrder(oracle, clock);
    forall k | 0 <= k < 6 ensures r[k].status != Skipped {
      RunSkipGate(name, suite, oracle, clock, k);
    }
  }

  /** The basic_connectivity suite is [backend, pkcs11, ctk] x
      [connectivity, health_check], so every run of it has six results. */
  lemma BasicConnectivityDefinition()
    ensures Lookup("basic_connectivity") ==
      Suite(["backend", "pkcs11", "ctk"], ["connectivity", "health_check"])
    ensures forall oracle: nat -> Verdict, clock: nat -> real ::
      |RunResults("basic_connectivity", oracle, clock)| == 6
  {
    assert Mul(3, 2) == 6;
  }
}
