/** Read-only records of the passive runtime and of health probes, shared by the decision engine,
    the default providers and the serialisers. */
module Records {
  import opened Values
  import opened Preflight

  datatype RuntimeState = INIT | RUNNING | RUNTIME_DEGRADED | BLOCKED | RUNTIME_FAILED | STOPPED {
    function Value(): string {
      match this
      case INIT => "INIT"
      case RUNNING => "RUNNING"
      case RUNTIME_DEGRADED => "DEGRADED"
      case BLOCKED => "BLOCKED"
      case RUNTIME_FAILED => "FAILED"
      case STOPPED => "STOPPED"
    }
  }

  /** Logical time of the runtime: tick, instant, cycle. */
  datatype RuntimeClock = RuntimeClock(tick: int, instant: int, cycle: int)

  datatype RuntimeCycle = RuntimeCycle(clock: RuntimeClock, openedAt: Time, closedAt: Option<Time>)

  datatype RuntimeContext = RuntimeContext(
    state: RuntimeState,
    cycle: RuntimeCycle,
    facts: seq<Fact>,
    evidence: seq<EvidenceSet>,
    traces: seq<Trace>)

  datatype HealthObservation = OBSERVED_HEALTH | UNOBSERVED | UNKNOWN_HEALTH {
    function Value(): string {
      match this
      case OBSERVED_HEALTH => "observed"
      case UNOBSERVED => "unobserved"
      case UNKNOWN_HEALTH => "unknown"
    }
  }

  datatype HealthReport = HealthReport(
    facts: seq<Fact>,
    primaryEvidence: seq<EvidencePrimary>,
    secondaryEvidence: seq<EvidenceSecondary>,
    traces: seq<Trace>,
    observation: HealthObservation,
    createdAt: Time)

  /** The read-only report of the passive runtime. */
  datatype RuntimeReport = RuntimeReport(
    context: RuntimeContext,
    preflightReports: seq<PreflightReport>,
    healthReports: seq<HealthReport>,
    expression: AuthorityExpression,
    traces: seq<Trace>,
    createdAt: Time,
    acteParent: string)

  /** The runtime report constructor keeps every argument as given; `acteParent` defaults to
      ACTE_IV. */
  function BuildRuntimeReport(
    context: RuntimeContext,
    preflightReports: seq<PreflightReport>,
    healthReports: seq<HealthReport>,
    expression: AuthorityExpression,
    traces: seq<Trace>,
    createdAt: Time,
    acteParent: string := ACTE_IV): (r: RuntimeReport)
    ensures r.context == context && r.preflightReports == preflightReports
    ensures r.healthReports == healthReports && r.expression == expression
    ensures r.traces == traces && r.createdAt == createdAt && r.acteParent == acteParent
  {
    RuntimeReport(context, preflightReports, healthReports, expression, traces, createdAt, acteParent)
  }
}
