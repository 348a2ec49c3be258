/** The executor-backed deployer variant: the execution records, the status-to-deploy-state map and
    one execution, with the executor and the two clock reads supplied by the caller. */
module Execution {
  import opened Values

  /** The observable status of a minimal execution. */
  datatype ExecutionStatus = APPLIED | FAILED | UNKNOWN {
    function Value(): string {
      match this
      case APPLIED => "APPLIED"
      case FAILED => "FAILED"
      case UNKNOWN => "UNKNOWN"
    }
  }

  /** Read-only context handed over by the runner. */
  datatype ExecutionContext = ExecutionContext(acteParent: string, runnerDecision: string, requestedAt: Time)

  datatype ExecutionRequest = ExecutionRequest(
    order: Order,
    action: string,
    target: string,
    payload: Attrs,
    context: ExecutionContext)

  datatype ExecutionResult = ExecutionResult(
    status: ExecutionStatus,
    deployState: DeployState,
    order: Order,
    facts: seq<Fact>,
    traces: seq<Trace>,
    rawResult: Option<string>,
    rawError: Option<string>,
    startedAt: Time,
    finishedAt: Time)

  /** What an executor returns: a status and optional raw output and error text. */
  datatype ExecutorOutput = ExecutorOutput(status: ExecutionStatus, rawResult: Option<string>, rawError: Option<string>)

  /** The deploy state of a raw status: the state of the same name. A rejection is never an
      execution status, so no status maps to REJECTED. */
  function MapExecutionStatus(status: ExecutionStatus): (state: DeployState)
    ensures state.Value() == status.Value()
    ensures state != DEPLOY_REJECTED
  {
    match status
    case APPLIED => DEPLOY_APPLIED
    case FAILED => DEPLOY_FAILED
    case UNKNOWN => DEPLOY_UNKNOWN
  }

  /** Distinct statuses map to distinct deploy states. */
  lemma MapExecutionStatusInjective(a: ExecutionStatus, b: ExecutionStatus)
    requires MapExecutionStatus(a) == MapExecutionStatus(b)
    ensures a == b
  {
  }

  /** The trace metadata of one execution; the raw keys are present only for present values. */
  function ExecutionTraceMetadata(request: ExecutionRequest, output: ExecutorOutput, startedAt: Time, finishedAt: Time): (m: Attrs)
    ensures "raw_result" in m <==> output.rawResult.Some?
    ensures "raw_error" in m <==> output.rawError.Some?
    ensures output.rawResult.Some? ==> m["raw_result"] == output.rawResult.value
    ensures output.rawError.Some? ==> m["raw_error"] == output.rawError.value
    ensures "status" in m && m["status"] == output.status.Value()
    ensures "started_at" in m && m["started_at"] == IsoFormat(startedAt)
    ensures "finished_at" in m && m["finished_at"] == IsoFormat(finishedAt)
  {
    var state := MapExecutionStatus(output.status);
    var base := map[
      "acte_parent" := request.context.acteParent,
      "order_id" := request.order.identifier,
      "action" := request.action,
      "target" := request.target,
      "status" := output.status.Value(),
      "deploy_state" := state.Value(),
      "started_at" := IsoFormat(startedAt),
      "finished_at" := IsoFormat(finishedAt)];
    var withResult := if output.rawResult.Some? then base["raw_result" := output.rawResult.value] else base;
    if output.rawError.Some? then withResult["raw_error" := output.rawError.value] else withResult
  }

  /** One execution: the executor runs between the two clock reads `startedAt` and `finishedAt`. */
  function Execute(request: ExecutionRequest, executor: ExecutionRequest -> ExecutorOutput,
                   startedAt: Time, finishedAt: Time): (r: ExecutionResult)
    ensures r.status == executor(request).status
    ensures r.rawResult == executor(request).rawResult && r.rawError == executor(request).rawError
    ensures r.deployState == MapExecutionStatus(r.status)
    ensures request.order.consumedAt.None? ==> r.order == request.order.(consumedAt := Some(finishedAt))
    ensures request.order.consumedAt.Some? ==> r.order == request.order
    ensures |r.facts| == 2
    ensures r.facts[0].description == "deployer.execution.attempted"
    ensures r.facts[1].description == "deployer.execution.status"
    ensures |r.traces| == 1 && r.traces[0].actor == "deployer" && r.traces[0].timestamp == finishedAt
    ensures r.traces[0].metadata == ExecutionTraceMetadata(request, executor(request), startedAt, finishedAt)
    ensures r.startedAt == startedAt && r.finishedAt == finishedAt
  {
    var output := executor(request);
    var consumedOrder := if request.order.consumedAt.None? then request.order.(consumedAt := Some(finishedAt))
                         else request.order;
    var state := MapExecutionStatus(output.status);
    var facts := [
      Fact("deployer.execution.attempted", map[
        "acte_parent" := request.context.acteParent,
        "order_id" := request.order.identifier,
        "action" := request.action,
        "target" := request.target]),
      Fact("deployer.execution.status", map[
        "order_id" := request.order.identifier,
        "status" := output.status.Value(),
        "deploy_state" := state.Value()])
    ];
    var traces := [Trace(finishedAt, "deployer", ExecutionTraceMetadata(request, output, startedAt, finishedAt))];
    ExecutionResult(output.status, state, consumedOrder, facts, traces,
                    output.rawResult, output.rawError, startedAt, finishedAt)
  }

  /** The consumed-once rule of the executor variant: executing the returned order again keeps its
      consumption time, which is the finish time of the first execution that saw it unconsumed. */
  lemma {:induction false} ExecuteConsumesOnce(
    request: ExecutionRequest, executor: ExecutionRequest -> ExecutorOutput,
    started1: Time, finished1: Time, started2: Time, finished2: Time)
    ensures var first := Execute(request, executor, started1, finished1);
      var second := Execute(request.(order := first.order), executor, started2, finished2);
      first.order.consumedAt.Some? &&
      second.order == first.order &&
      (request.order.consumedAt.None? ==> second.order.consumedAt == Some(finished1))
  {
    var first := Execute(request, executor, started1, finished1);
    assert first.order.consumedAt.Some?;
  }
}
