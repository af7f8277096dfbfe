/** Records exchanged by the test orchestrator: the outcome of one test and the
    last observed health of one component.  Timestamps are not modelled. */
module Records {

  datatype Option<T> = None | Some(value: T)

  /** The three outcomes a test can have ('passed', 'failed', 'skipped'). */
  datatype TestStatus = Passed | Failed | Skipped

  /** The states a health record can carry: 'healthy' and 'unhealthy' for the
      backend probe, 'available' and 'not_ready' for a component probe. */
  datatype HealthState = Healthy | Unhealthy | Available | NotReady

  /** HealthStatus: one entry of the component status table. */
  datatype HealthStatus = HealthStatus(service: string, state: HealthState, details: string)

  /** TestResult: the immutable record of one executed (or skipped) test. */
  datatype TestResult = TestResult(
    testId: string,
    component: string,
    testType: string,
    status: TestStatus,
    durationSeconds: real,
    details: string)

  /** What the injected test oracle decides for one execution: the assertion
      passed, failed, or the execution raised a fault with a message. */
  datatype Verdict = Pass | Fail | Fault(message: string)

  /** Label tuple of the tests counter: (test_type, component, status). */
  type TestLabel = (string, string, TestStatus)

  /** Label tuple of the health-check counter: (component, status). */
  type HealthLabel = (string, HealthState)
}
