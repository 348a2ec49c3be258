/** The default runtime API provider: every getter reads the clock once and builds a constant
    "nothing known" report at that instant. The clock read is the `now` parameter. */
module Provider {
  import opened Values
  import opened Records
  import RunnerCycle
  import Execution
  import Gateway

  /** The default cycle: logical clock (0, 0, 0), opened at `timestamp`, not closed. */
  function BuildDefaultCycle(timestamp: Time): (cycle: RuntimeCycle)
    ensures cycle.clock == RuntimeClock(0, 0, 0)
    ensures cycle.openedAt == timestamp && cycle.closedAt.None?
  {
    RuntimeCycle(RuntimeClock(0, 0, 0), timestamp, None)
  }

  /** The default context: INIT, the default cycle, and no facts, evidence or traces. */
  function DefaultContext(timestamp: Time): RuntimeContext {
    RuntimeContext(INIT, BuildDefaultCycle(timestamp), [], [], [])
  }

  /** The runtime status is unknown: state INIT, no reports and a Silence at `now`. */
  function GetRuntimeStatus(now: Time): (r: RuntimeReport)
    ensures r.context.state == INIT && r.context.cycle.clock == RuntimeClock(0, 0, 0)
    ensures r.context.facts == [] && r.context.evidence == [] && r.context.traces == []
    ensures r.preflightReports == [] && r.healthReports == [] && r.traces == []
    ensures r.expression.Silence? && r.expression.reason == "runtime_status_unknown"
    ensures r.expression.createdAt == now && r.createdAt == now && r.context.cycle.openedAt == now
    ensures r.acteParent == ACTE_IV
  {
    var expression := Silence("runtime_status_unknown", now, map["reason" := "runtime_status_unknown"], ACTE_IV);
    BuildRuntimeReport(DefaultContext(now), [], [], expression, [], now)
  }

  /** No cycle report is available: summary "cycle_report_unavailable", no reasons, and a Silence. */
  function GetRunnerCycle(now: Time): (r: RunnerCycle.RunnerRuntimeReport)
    ensures r.context.state == INIT && r.context.cycle.clock == RuntimeClock(0, 0, 0)
    ensures r.decision.summary == "cycle_report_unavailable" && r.decision.reasons == []
    ensures r.expression.Silence? && r.expression.reason == "runner_cycle_unknown" && r.expression.createdAt == now
    ensures r.traces == [] && r.preflightReports == [] && r.healthReports == [] && r.createdAt == now
  {
    var decision := RunnerCycle.RunnerDecision("cycle_report_unavailable", [], ACTE_IV);
    var expression := Silence("runner_cycle_unknown", now, map["reason" := "runner_cycle_unknown"], ACTE_IV);
    RunnerCycle.RunnerRuntimeReport(DefaultContext(now), decision, expression, [], [], [], now, ACTE_IV)
  }

  /** No execution is known: status and deploy state UNKNOWN, an unconsumed "unknown" order, and a
      start and finish at the same instant. */
  function GetDeployerLast(now: Time): (r: Execution.ExecutionResult)
    ensures r.status == Execution.UNKNOWN && r.deployState == DEPLOY_UNKNOWN
    ensures r.order.identifier == "unknown" && r.order.scope == "unknown"
    ensures r.order.consumedAt.None? && r.order.createdAt == now && r.order.metadata == map[]
    ensures r.order.acteParent == ACTE_IV
    ensures r.facts == [] && r.traces == [] && r.rawResult.None? && r.rawError.None?
    ensures r.startedAt == now && r.finishedAt == now
  {
    var order := Order("unknown", "unknown", now, ACTE_IV, None, map[]);
    Execution.ExecutionResult(Execution.UNKNOWN, DEPLOY_UNKNOWN, order, [], [], None, None, now, now)
  }

  /** The default gateway report, for an unknown target with no proof and no order. */
  function GetGatewayExposure(now: Time): (r: Gateway.GatewayReport)
    ensures r.request.order.None? && !r.context.proofPresent
    ensures r.context.exposureState == Gateway.GatewayExposureState.UNKNOWN && r.context.target == "unknown"
    ensures r == Gateway.BuildGatewayReport(r.request, now)
  {
    var context := Gateway.GatewayContext("unknown", Gateway.GatewayExposureState.UNKNOWN, false, [], []);
    Gateway.BuildGatewayReport(Gateway.GatewayRequest(None, context, map[]), now)
  }

  /** The default deploy state agrees with the executor-status map: UNKNOWN is the image of UNKNOWN. */
  lemma DeployerLastStateIsMapped(now: Time)
    ensures GetDeployerLast(now).deployState == Execution.MapExecutionStatus(GetDeployerLast(now).status)
  {
  }

  /** Derived from the gateway decision tree: with no proof and an UNKNOWN exposure, the default
      report is INSUFFICIENT_EVIDENCE with a Silence for missing proof, one status fact and one
      gateway trace. */
  lemma {:induction false} DefaultGatewayIsSilent(now: Time)
    ensures var r := GetGatewayExposure(now);
      r.status == Gateway.INSUFFICIENT_EVIDENCE && r.expression.Silence? &&
      r.expression.reason == "preuve manquante" && r.expression.createdAt == now &&
      |r.facts| == 1 && |r.traces| == 1
  {
    var r := GetGatewayExposure(now);
    assert r.status == Gateway.DeriveStatus(r.request);
    Gateway.MappingIsTotalAndSingleton();
  }
}
