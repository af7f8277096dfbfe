# Test orchestrator engine — Dafny model

This project models the orchestration engine of the Supacrypt integration-test
orchestrator (`integration-test-environment/test-orchestrator/orchestrator.py`).

- **The `TestOrchestrator` object.** It holds a result log (`test_results`) and a
  component status table (`component_status`).
  - A component probe looks its name up in a fixed availability table
    (`backend`, `pkcs11` and `ctk` are available). It overwrites that one entry
    with `available` or `not_ready`.
  - The backend probe writes `healthy`, or `unhealthy` with the fault's message.
- **The single-test executor.** It probes the component first.
  - If the component is not available, the result is `skipped` and is not
    logged.
  - Otherwise an injected verdict decides `passed` or `failed`, and the result
    is appended to the log.
  - A fault becomes a `failed` result with details
    `"Test execution failed: <message>"`. It is appended too.
- **The suite runner.** It expands a catalogue suite into components (outer
  loop) × test types (inner loop), numbering the executions
  `{suite}_{n:03d}` from 1. An unknown suite runs nothing.
- **The two Prometheus counters.** They are ghost multisets of label tuples.

The handler logic around the engine is modelled as well:
- the name check of the single-test endpoint, which accepts exactly the five
  known components;
- the passed/failed/skipped counts of the suite endpoint's summary;
- the status endpoint, which runs the backend probe.

Module layout, following the program's structure:

- `records.dfy` (`Records`): `TestResult`, `HealthStatus`, the status enums, and
  the `Verdict` that stands in for `random.random()` and for raised exceptions.
- `idformat.dfy` (`IdFormat`): `str(n)`, `{n:03d}` and `{suite}_{n:03d}`, with a
  parser that proves the formatting reversible.
- `registry.dfy` (`Registry`): the availability table, the probe records and how
  probes change the status table.
- `executor.dfy` (`Executor`): a single execution as a function of its inputs,
  and the log and counter entries a sequence of executions leaves behind.
- `suites.dfy` (`Suites`): the catalogue and the results of a suite run, as a
  function of a verdict oracle and a duration clock indexed by execution
  position.
- `engine.dfy` (`Engine`): the `TestOrchestrator` class, whose methods update its
  fields in place and whose loops are proved against `Suites`. The `Ledger`
  bundles the object's side effects.
- `service.dfy` (`Service`): the component-name check, the manual test id, the
  suite summary and the single-test, suite and status endpoints as methods over
  the orchestrator object.

Source paths below are relative to the repository root; `#components` and `#tests`
are the lengths of a suite's two lists.

## Model

| member | source | states |
|---|---|---|
| Registry.IsAvailable | integration-test-environment/test-orchestrator/orchestrator.py:101-109 | a component is available exactly when it is backend, pkcs11 or ctk; csp, ksp and every unknown name are unavailable, and the lookup is total |
| Registry.ProbeState | integration-test-environment/test-orchestrator/orchestrator.py:109-110 | a probe records `available` exactly when the component is available and `not_ready` exactly when it is not |
| Registry.ProbeRecord | integration-test-environment/test-orchestrator/orchestrator.py:112-117 | the entry a component probe writes is named after the component, carries "Component implementation status checked", and is `available` exactly when the table says so, `not_ready` otherwise |
| Registry.Probe | integration-test-environment/test-orchestrator/orchestrator.py:109-120 | a probe adds or overwrites only its own component's entry, with that component's probe record; the keys become the old keys plus the component, and every other entry is unchanged |
| Registry.ProbeAllEffect | integration-test-environment/test-orchestrator/orchestrator.py:112-117 | after a sequence of probes, exactly the probed components have their probe record and every other key keeps its old entry |
| Registry.BackendRecord | integration-test-environment/test-orchestrator/orchestrator.py:74-93 | the backend entry is `healthy` iff no fault was raised, and `unhealthy` carrying the fault text otherwise |
| Registry.KnownComponents | integration-test-environment/test-orchestrator/orchestrator.py:272 | the name check accepts exactly backend, pkcs11, csp, ksp and ctk; every available component passes it, and csp and ksp pass it but are unavailable |
| IdFormat.Decimal | integration-test-environment/test-orchestrator/orchestrator.py:244 | `str(n)` is a non-empty digit string with no leading zero unless n is 0 |
| IdFormat.ZeroPad | integration-test-environment/test-orchestrator/orchestrator.py:244 | zero padding keeps the whole string as its suffix, pads only with '0', and reaches the width unless the string is already longer |
| IdFormat.Pad3 | integration-test-environment/test-orchestrator/orchestrator.py:244 | `{n:03d}`: what it means is stated by `IdFormat.Pad3RoundTrip` (at least three digits, reading back as n) and pinned by `IdFormat.Pad3Examples` |
| IdFormat.TestId | integration-test-environment/test-orchestrator/orchestrator.py:244 | `{suite}_{n:03d}`: what it means is stated by `IdFormat.TestIdInjective` (distinct counters give distinct ids) and `Suites.BasicConnectivityIds` (the concrete ids of one run) |
| IdFormat.DecimalRoundTrip | integration-test-environment/test-orchestrator/orchestrator.py:244 | parsing `str(n)` gives back n |
| IdFormat.Pad3RoundTrip | integration-test-environment/test-orchestrator/orchestrator.py:244 | `{n:03d}` has at least three digits and reads back as n |
| IdFormat.TestIdInjective | integration-test-environment/test-orchestrator/orchestrator.py:244 | for one suite name, two counters give the same id iff they are equal |
| IdFormat.OneDigitPad | integration-test-environment/test-orchestrator/orchestrator.py:244 | a one-digit counter is rendered as "00" followed by its digit |
| IdFormat.Pad3Examples | integration-test-environment/test-orchestrator/orchestrator.py:244 | 1, 6, 42 and 1234 render as "001", "006", "042" and "1234" |
| Executor.Execute | integration-test-environment/test-orchestrator/orchestrator.py:122-212 | a result always carries the given test id, component and test type; nothing is raised |
| Executor.SkipDetails | integration-test-environment/test-orchestrator/orchestrator.py:140 | the skip text "Component c not ready for testing"; `Executor.ExecuteOutcome` states that it is the details of exactly the skipped results |
| Executor.OutcomeDetails | integration-test-environment/test-orchestrator/orchestrator.py:172-175 | the passed/failed text, with the "needs additional implementation work" suffix on failures; `Executor.ExecuteOutcome` states that it is the details of exactly the results that were not skipped and did not fault |
| Executor.ExecuteOutcome | integration-test-environment/test-orchestrator/orchestrator.py:130-212 | skipped iff the component is unavailable, with 0.1 s and "Component c not ready for testing"; otherwise passed iff the verdict is Pass, failed otherwise, with the measured duration; a fault gives "Test execution failed: " + message; otherwise the passed/failed details text |
| Executor.Logged | integration-test-environment/test-orchestrator/orchestrator.py:144-211 | the log of a sequence of executions holds exactly the results that were not skipped, and is no longer than the sequence |
| Executor.TestLabels | integration-test-environment/test-orchestrator/orchestrator.py:143-210 | every execution increments the tests counter exactly once |
| Executor.TestLabelsContents | integration-test-environment/test-orchestrator/orchestrator.py:143-210 | the tests counter holds exactly the executions' (test_type, component, status) labels: each execution's label is in it and every label in it comes from some execution |
| Executor.HealthLabels | integration-test-environment/test-orchestrator/orchestrator.py:119-130 | every execution increments the health-check counter exactly once, through its probe |
| Executor.ComponentsOf | integration-test-environment/test-orchestrator/orchestrator.py:130 | the k-th probe of a sequence of executions is of the k-th result's component |
| Suites.Lookup | integration-test-environment/test-orchestrator/orchestrator.py:219-236 | an unknown suite has no components and no tests; every catalogue suite has at least one of each |
| Suites.Row | integration-test-environment/test-orchestrator/orchestrator.py:242 | the inner loop pairs the component with each test type, in order |
| Suites.Pairs | integration-test-environment/test-orchestrator/orchestrator.py:241-242 | the cross product has #components × #tests pairs |
| Suites.PairsAt | integration-test-environment/test-orchestrator/orchestrator.py:241-242 | pair i·#tests + j is component i with test j |
| Suites.PairsIndex | integration-test-environment/test-orchestrator/orchestrator.py:241-242 | pair k is component k div #tests with test k mod #tests |
| Suites.Prefix | integration-test-environment/test-orchestrator/orchestrator.py:238-246 | when the loops reach component i, test j, they have collected i·#tests + j results |
| Suites.Run | integration-test-environment/test-orchestrator/orchestrator.py:238-248 | the list a suite run returns; `Suites.RunShape` states result k in closed form, `Suites.RunLength` its length and `Suites.RunIdsDistinct` its ids |
| Suites.RunResults | integration-test-environment/test-orchestrator/orchestrator.py:234-248 | the run of the catalogue suite with that name; `Suites.UnknownSuiteRunsNothing` states that an unknown name yields `[]` |
| Suites.PrefixAt | integration-test-environment/test-orchestrator/orchestrator.py:238-246 | every collected result sits at the index of its (component, test) position |
| Suites.RunLength | integration-test-environment/test-orchestrator/orchestrator.py:241-248 | a run returns #components × #tests results |
| Suites.RunShape | integration-test-environment/test-orchestrator/orchestrator.py:239-246 | result k (from 0) comes from component k div #tests and test k mod #tests, with id `{name}_{k+1:03d}`, verdict oracle(k) and duration clock(k) |
| Suites.RunFollowsPairs | integration-test-environment/test-orchestrator/orchestrator.py:241-246 | the run executes the cross product in component-outer, test-inner order |
| Suites.RunSkipGate | integration-test-environment/test-orchestrator/orchestrator.py:130-144 | within a run, a result is skipped iff its component is unavailable |
| Suites.RunIdsDistinct | integration-test-environment/test-orchestrator/orchestrator.py:239-244 | the ids within one run are pairwise distinct |
| Suites.RunIdsRepeat | integration-test-environment/test-orchestrator/orchestrator.py:239 | numbering restarts at 1 on every run, so two runs of one suite produce the same ids whatever the verdicts |
| Suites.UnknownSuiteRunsNothing | integration-test-environment/test-orchestrator/orchestrator.py:234-236 | an unknown suite name yields an empty result list |
| Suites.BasicConnectivityDefinition | integration-test-environment/test-orchestrator/orchestrator.py:220-223 | basic_connectivity is components [backend, pkcs11, ctk] × tests [connectivity, health_check], and every run of it has six results |
| Suites.BasicConnectivityIdText | integration-test-environment/test-orchestrator/orchestrator.py:244 | the n-th basic_connectivity id (n < 10) is "basic_connectivity_00" followed by the digit n |
| Suites.BasicConnectivityIds | integration-test-environment/test-orchestrator/orchestrator.py:219-244 | basic_connectivity yields exactly six results with ids basic_connectivity_001 … _006, in order |
| Suites.BasicConnectivityOrder | integration-test-environment/test-orchestrator/orchestrator.py:219-246 | the six results are backend, backend, pkcs11, pkcs11, ctk, ctk against connectivity, health_check alternately |
| Suites.BasicConnectivityNotSkipped | integration-test-environment/test-orchestrator/orchestrator.py:219-223 | no result of basic_connectivity is skipped |
| Engine.Record | integration-test-environment/test-orchestrator/orchestrator.py:130-212 | the effect of one execution on the object: `Engine.TestOrchestrator.RunIntegrationTest` states that a call changes the state by exactly this, and `Engine.RecordAllEffect` gives it in closed form for a sequence |
| Engine.RecordAll | integration-test-environment/test-orchestrator/orchestrator.py:238-246 | the effect of a sequence of executions in order; `Engine.RecordAllEffect` states its four parts, and `Engine.LedgerGrows` that it only appends and adds |
| Engine.RecordAllLog | integration-test-environment/test-orchestrator/orchestrator.py:193-211 | a sequence of executions appends exactly its not-skipped results to the log, in order |
| Engine.RecordAllStatus | integration-test-environment/test-orchestrator/orchestrator.py:112-130 | a sequence of executions probes the results' components in order |
| Engine.RecordAllCounters | integration-test-environment/test-orchestrator/orchestrator.py:119-210 | a sequence of executions adds one label per execution to each counter |
| Engine.RecordAllEffect | integration-test-environment/test-orchestrator/orchestrator.py:122-212 | a sequence of executions changes the log, the status table and the counters as above, and nothing else |
| Engine.LedgerGrows | integration-test-environment/test-orchestrator/orchestrator.py:190-211 | executions never remove or reorder earlier log entries and never decrease a counter |
| Engine.LedgerAtReplays | integration-test-environment/test-orchestrator/orchestrator.py:238-246 | at each point of a run, the object's state is the replay of the results collected so far |
| Engine.TestOrchestrator.constructor | integration-test-environment/test-orchestrator/orchestrator.py:58-62 | a new orchestrator has an empty log and an empty status table; its counters start empty, which matches the source's global counters because the program builds one orchestrator |
| Engine.TestOrchestrator.CheckBackendHealth | integration-test-environment/test-orchestrator/orchestrator.py:64-93 | returns true iff no fault; overwrites only the backend entry with its record; one health-check increment; log and tests counter unchanged |
| Engine.TestOrchestrator.CheckComponentAvailability | integration-test-environment/test-orchestrator/orchestrator.py:95-120 | returns the table's availability; the status table becomes the probe of the old one, with `available`/`not_ready` accordingly; one health-check increment; nothing else changes |
| Engine.TestOrchestrator.RunIntegrationTest | integration-test-environment/test-orchestrator/orchestrator.py:122-212 | the result is the execution's outcome (see `Executor.ExecuteOutcome`); the new state is the old one with that single execution recorded: logged unless skipped, its component probed, one increment per counter |
| Engine.TestOrchestrator.RunTestSuite | integration-test-environment/test-orchestrator/orchestrator.py:214-248 | the results are the suite's run (see `Suites.RunShape`); the new state is the old one with every result recorded in order |
| Engine.TestOrchestrator.RunSuite | integration-test-environment/test-orchestrator/orchestrator.py:238-248 | the outer loop over components collects the whole run and leaves the state the run's ledger |
| Engine.TestOrchestrator.RunComponentTests | integration-test-environment/test-orchestrator/orchestrator.py:242-246 | the inner loop over test types continues the id counter by #tests and extends results and state by component i's row |
| Service.WithStatus | integration-test-environment/test-orchestrator/orchestrator.py:287-289 | a status filter keeps exactly the results with that status, is no longer than its input, and is empty when no result has that status |
| Service.CountsPartition | integration-test-environment/test-orchestrator/orchestrator.py:286-289 | passed + failed + skipped equals the number of results |
| Service.LoggedCount | integration-test-environment/test-orchestrator/orchestrator.py:287-288 | the number of logged results equals passed + failed |
| Service.Summarize | integration-test-environment/test-orchestrator/orchestrator.py:284-291 | the summary carries the suite name and results; its three counts add up to total_tests = len(results), and passed + failed is the number of results the run logged |
| Service.ComponentCheck | integration-test-environment/test-orchestrator/orchestrator.py:272-273 | accepted exactly for the five known names; otherwise status 400 with "Invalid component" |
| Service.ManualId | integration-test-environment/test-orchestrator/orchestrator.py:275 | `manual_{component}_{second}`: the prefix "manual_" + component + "_", then a digit string that reads back as the second |
| Service.ManualIdDistinct | integration-test-environment/test-orchestrator/orchestrator.py:275 | manual tests of one component requested in different seconds get different ids |
| Service.TestComponent | integration-test-environment/test-orchestrator/orchestrator.py:269-277 | an unknown component is rejected with 400 before anything runs, leaving the state unchanged; otherwise the reply is the execution under id manual_{c}_{second}, of the requested test type or connectivity when none is given, recorded in the state |
| Service.GetStatus | integration-test-environment/test-orchestrator/orchestrator.py:258-267 | the reply says healthy iff the backend probe saw no fault, and carries the status table after that probe and the number of logged results; the state changes only by that probe |
| Service.RunTestSuiteHandler | integration-test-environment/test-orchestrator/orchestrator.py:279-293 | the reply is the summary of the suite run, and the state records the run |
| Service.SuiteSummaryTotals | integration-test-environment/test-orchestrator/orchestrator.py:284-291 | for every suite name, passed + failed + skipped = total_tests = #components × #tests of its definition |
| Service.BasicConnectivitySummary | integration-test-environment/test-orchestrator/orchestrator.py:284-289 | the basic_connectivity summary has six tests, none skipped, so passed + failed = 6 |

## Left out

- HTTP transport is not modelled: FastAPI routing, JSON serialisation, the `HTTPException` mechanism and uvicorn start-up. The name check is modelled as a `Response` value, and the endpoints as methods taking the orchestrator object explicitly.
- The `/status` endpoint changes state: it runs the backend probe (`Engine.TestOrchestrator.CheckBackendHealth`) and then reads the status table and the log length. It is modelled as `Service.GetStatus`.
- The `/health`, `/test/results` and `/metrics` endpoints only read state or call the metrics library, so they are not modelled.
- The optional `test_type` query parameter of the single-test endpoint, with its default `"connectivity"`, is an `Option<string>` parameter of `Service.TestComponent` that falls back to `Service.DEFAULT_TEST_TYPE`.
- Logging is not modelled.
- The Prometheus client library is not modelled. The two counters are ghost multisets of label tuples, incremented exactly where the source increments them. The duration histogram and `generate_latest` are left out.
- Counter placement: in the source the two counters are module-level globals that every `TestOrchestrator` shares and that `__init__` never resets. The model makes them ghost fields of the object, which its constructor sets to empty. The two agree because the program builds a single orchestrator at start-up; with several orchestrators, the model would not capture increments accumulating across them.
- Time is not modelled.
  - `asyncio.sleep` delays and the per-test-type nominal duration table are left out.
  - The elapsed duration is an opaque `real` parameter. For a suite run it comes from a `clock` indexed by execution position.
  - The skip path's fixed 0.1 is kept.
- Randomness is not modelled. `random.random()` and the success-rate table are replaced by an injected `Verdict`. For a suite run it comes from an `oracle` indexed by execution position. `Fault(message)` stands for an exception raised while the test executes.
- Executor.ExecuteOutcome covers faults only in the execution step, after the skip gate. An exception raised by the probe itself cannot happen in this code, because the probe is a total table lookup.
- Registry.BackendRecord: the backend probe cannot fail in this code. The injected `fault` parameter models the `except` branch; `None` is the behaviour of the code as written.
- Timestamps (`datetime.utcnow()`) are left out of `TestResult` and `HealthStatus`. The manual test id takes the whole second of the request time as a parameter.
- The backend URL and gRPC endpoint come from the environment or are fixed strings, and are not used by any modelled behaviour. They are left out.
- Concurrency between requests is not modelled. The engine is single-threaded and each `async` method runs to completion.
- The `TestSuite` model class (name, description, components, tests) is unused by the code. Suites are modelled by `Suites.Suite` (components and tests only).
- Behaviours of the code a reader may not expect, which the model keeps:
  - Test ids are unique within one run (`Suites.RunIdsDistinct`) but not across runs, because numbering restarts at 1 on every run (`Suites.RunIdsRepeat`).
  - Manual ids collide for two requests of the same component within one second.
  - A failed backend probe records `unhealthy`, not `not_ready`.
