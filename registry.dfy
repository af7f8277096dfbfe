/** Component registry and health prober: the simulated availability table,
    the record a probe writes, and how a sequence of probes changes the
    component status table. */
module Registry {
  import opened Records

  /** The five component names the service accepts for a single test. */
  const KNOWN_COMPONENTS: seq<string> := ["backend", "pkcs11", "csp", "ksp", "ctk"]

  /** The simulated implementation-status table consulted by a component probe. */
  const AVAILABILITY_TABLE: map<string, bool> :=
    map["pkcs11" := true, "csp" := false, "ksp" := false, "ctk" := true, "backend" := true]

  const PROBE_DETAILS := "Component implementation status checked"
  const BACKEND_DETAILS := "gRPC service responding"

  /** Availability lookup; an unknown name is unavailable, not an error. */
  function IsAvailable(component: string): (available: bool)
    ensures available <==> component == "backend" || component == "pkcs11" || component == "ctk"
  {
    if component in AVAILABILITY_TABLE then AVAILABILITY_TABLE[component] else false
  }

  /** The state a component probe records. */
  function ProbeState(component: string): (state: HealthState)
    ensures state == Available <==> IsAvailable(component)
    ensures state == NotReady <==> !IsAvailable(component)
  {
    if IsAvailable(component) then Available else NotReady
  }

  /** The status entry a component probe writes for its component: named
      after it, available exactly when the table says so. */
  function ProbeRecord(component: string): (record: HealthStatus)
    ensures record.service == component && record.details == PROBE_DETAILS
    ensures record.state == Available <==> IsAvailable(component)
    ensures record.state == NotReady <==> !IsAvailable(component)
  {
    HealthStatus(component, ProbeState(component), PROBE_DETAILS)
  }

  /** The status table after probing one component: the probe adds or
      overwrites the entry of its component with its probe record and keeps
      every other entry. */
  function Probe(status: map<string, HealthStatus>, component: string): (probed: map<string, HealthStatus>)
    ensures probed.Keys == status.Keys + {component}
    ensures probed[component] == ProbeRecord(component)
    ensures forall c :: c in status && c != component ==> probed[c] == status[c]
  {
    status[component := ProbeRecord(component)]
  }

  /** The status table after probing the given components in order. */
  function ProbeAll(status: map<string, HealthStatus>, components: seq<string>): map<string, HealthStatus>
  {
    if components == [] then status
    else Probe(ProbeAll(status, components[..|components| - 1]), components[|components| - 1])
  }

  /** Probing a sequence of components changes exactly their entries, each to
      its probe record, and leaves every other entry as it was. */
  lemma {:induction false} ProbeAllEffect(status: map<string, HealthStatus>, components: seq<string>)
    ensures forall c :: c in ProbeAll(status, components) <==> c in status || c in components
    ensures forall c :: c in components ==> ProbeAll(status, components)[c] == ProbeRecord(c)
    ensures forall c :: c in status && c !in components ==> ProbeAll(status, components)[c] == status[c]
  {
    if components != [] {
      var init := components[..|components| - 1];
      assert forall c :: c in components <==> c in init || c == components[|components| - 1];
      ProbeAllEffect(status, init);
    }
  }

  /** The entry the backend probe writes: healthy unless the probe raised a fault. */
  function BackendRecord(fault: Option<string>): (record: HealthStatus)
    ensures record.service == "backend"
    ensures record.state == Healthy <==> fault.None?
    ensures record.state == Unhealthy <==> fault.Some?
    ensures fault.Some? ==> record.details == fault.value
  {
    match fault
    case None => HealthStatus("backend", Healthy, BACKEND_DETAILS)
    case Some(error) => HealthStatus("backend", Unhealthy, error)
  }

  /** Components that pass the single-test name check. */
  predicate IsKnownComponent(component: string)
  {
    component in KNOWN_COMPONENTS
  }

  /** The name check accepts exactly the five known names; every available
      component is among them, and two known names are never available. */
  lemma KnownComponents(component: string)
    ensures IsKnownComponent(component) <==>
      component in {"backend", "pkcs11", "csp", "ksp", "ctk"}
    ensures IsAvailable(component) ==> IsKnownComponent(component)
    ensures component == "csp" || component == "ksp" ==>
      IsKnownComponent(component) && !IsAvailable(component)
  {
  }
}
