/** The JSON shapes the runtime API, the ledger and the deployer's last-result file expose. Every
    record becomes a JSON object; sequences keep their length and order; absent times become null. */
module Serialization {
  import opened Values
  import opened Json
  import opened Records
  import opened Preflight
  import RunnerCycle
  import Execution
  import Gateway

  /** An optional time as its ISO text, or null when absent. */
  function IsoOpt(t: Option<Time>): (j: Json)
    ensures j == JNull <==> t.None?
    ensures t.Some? ==> j == JStr(IsoFormat(t.value))
  {
    match t
    case None => JNull
    case Some(v) => JStr(IsoFormat(v))
  }

  /** A list comprehension: one item per element, in order. */
  function JList<T>(xs: seq<T>, f: T -> Json): (j: Json)
    ensures j.JArr? && |j.items| == |xs|
    ensures forall i :: 0 <= i < |xs| ==> j.items[i] == f(xs[i])
  {
    JArr(seq(|xs|, i requires 0 <= i < |xs| => f(xs[i])))
  }

  function SerializeFact(fact: Fact): Json {
    JObj(map["description" := JStr(fact.description), "attributes" := AttrsJson(fact.attributes)])
  }

  function SerializeTrace(trace: Trace): Json {
    JObj(map[
      "timestamp" := JStr(IsoFormat(trace.timestamp)),
      "actor" := JStr(trace.actor),
      "metadata" := AttrsJson(trace.metadata)])
  }

  function SerializeEvidencePrimary(evidence: EvidencePrimary): Json {
    JObj(map["description" := JStr(evidence.description)])
  }

  function SerializeEvidenceSecondary(evidence: EvidenceSecondary): Json {
    JObj(map["description" := JStr(evidence.description)])
  }

  function SerializeEvidenceSet(evidence: EvidenceSet): Json {
    JObj(map[
      "primary" := SerializeEvidencePrimary(evidence.primary),
      "secondary" := JList(evidence.secondary, SerializeEvidenceSecondary)])
  }

  function Facts(facts: seq<Fact>): Json { JList(facts, SerializeFact) }

  function Traces(traces: seq<Trace>): Json { JList(traces, SerializeTrace) }

  // ------------------------------------------------------------------
  // Orders and expressions
  // ------------------------------------------------------------------

  /** The fields of an order record. */
  function OrderFields(order: Order): map<string, Json> {
    map[
      "identifier" := JStr(order.identifier),
      "scope" := JStr(order.scope),
      "created_at" := JStr(IsoFormat(order.createdAt)),
      "acte_parent" := JStr(order.acteParent),
      "consumed_at" := IsoOpt(order.consumedAt),
      "metadata" := AttrsJson(order.metadata)]
  }

  /** An order as a JSON object; `consumed_at` is null exactly when the order is unconsumed. */
  function SerializeOrder(order: Order): (j: Json)
    ensures j.JObj? && j.fields.Keys == {"identifier", "scope", "created_at", "acte_parent", "consumed_at", "metadata"}
    ensures j.fields["consumed_at"] == JNull <==> order.consumedAt.None?
    ensures j.fields["identifier"] == JStr(order.identifier) && j.fields["scope"] == JStr(order.scope)
  {
    JObj(OrderFields(order))
  }

  /** An absent order is null. */
  function SerializeOptionalOrder(order: Option<Order>): (j: Json)
    ensures j == JNull <==> order.None?
    ensures order.Some? ==> j == SerializeOrder(order.value)
  {
    match order
    case None => JNull
    case Some(o) => SerializeOrder(o)
  }

  /** The fields shared by Refusal and Silence records. */
  function ReasonFields(tag: string, reason: string, createdAt: Time, acteParent: string, metadata: Attrs): map<string, Json> {
    map[
      "type" := JStr(tag),
      "reason" := JStr(reason),
      "created_at" := JStr(IsoFormat(createdAt)),
      "acte_parent" := JStr(acteParent),
      "metadata" := AttrsJson(metadata)]
  }

  /** A tagged expression record: "order", "refusal" or "silence". Only the Order record has an
      identifier, a scope and a consumption time; only the others have a reason. */
  function SerializeExpression(e: AuthorityExpression): (j: Json)
    ensures j.JObj? && "type" in j.fields
    ensures j.fields["type"] == JStr(KindTag(KindOf(e)))
    ensures ("identifier" in j.fields) == ("scope" in j.fields) == ("consumed_at" in j.fields) == e.OrderExpression?
    ensures "reason" in j.fields <==> !e.OrderExpression?
    ensures e.OrderExpression? ==> (j.fields["consumed_at"] == JNull <==> e.order.consumedAt.None?)
    ensures !e.OrderExpression? ==> j.fields["reason"] == JStr(e.reason)
  {
    match e
    case OrderExpression(order) => JObj(OrderFields(order)["type" := JStr("order")])
    case Refusal(reason, createdAt, metadata, acteParent) =>
      JObj(ReasonFields("refusal", reason, createdAt, acteParent, metadata))
    case Silence(reason, createdAt, metadata, acteParent) =>
      JObj(ReasonFields("silence", reason, createdAt, acteParent, metadata))
  }

  /** The record tag of each kind. */
  function KindTag(kind: ActeIVExpression): string {
    match kind
    case ORDER => "order"
    case REFUS => "refusal"
    case SILENCE => "silence"
  }

  // ------------------------------------------------------------------
  // Reading records back
  // ------------------------------------------------------------------

  function StrField(fields: map<string, Json>, key: string): Option<string> {
    if key in fields && fields[key].JStr? then Some(fields[key].s) else None
  }

  function TimeField(fields: map<string, Json>, key: string): Option<Time> {
    match StrField(fields, key)
    case None => None
    case Some(s) => FromIsoFormat(s)
  }

  /** A time or null: Some(None) for null, None for anything unreadable. */
  function OptTimeField(fields: map<string, Json>, key: string): Option<Option<Time>> {
    if key in fields && fields[key] == JNull then Some(None)
    else match TimeField(fields, key)
      case None => None
      case Some(t) => Some(Some(t))
  }

  function AttrsField(fields: map<string, Json>, key: string): Option<Attrs> {
    if key in fields && fields[key].JObj? then Some(TextAttrs(fields[key].fields)) else None
  }

  /** An order read back from its record fields. */
  function OrderFromFields(fields: map<string, Json>): Option<Order> {
    var identifier := StrField(fields, "identifier");
    var scope := StrField(fields, "scope");
    var createdAt := TimeField(fields, "created_at");
    var acteParent := StrField(fields, "acte_parent");
    var consumedAt := OptTimeField(fields, "consumed_at");
    var metadata := AttrsField(fields, "metadata");
    if identifier.Some? && scope.Some? && createdAt.Some? && acteParent.Some? && consumedAt.Some? && metadata.Some?
    then Some(Order(identifier.value, scope.value, createdAt.value, acteParent.value, consumedAt.value, metadata.value))
    else None
  }

  /** An expression read back from its tagged record. */
  function ExpressionFromJson(j: Json): Option<AuthorityExpression> {
    if !j.JObj? then None
    else
      var fields := j.fields;
      var tag := StrField(fields, "type");
      if tag == Some("order") then
        match OrderFromFields(fields)
        case None => None
        case Some(order) => Some(OrderExpression(order))
      else if tag == Some("refusal") || tag == Some("silence") then
        var reason := StrField(fields, "reason");
        var createdAt := TimeField(fields, "created_at");
        var acteParent := StrField(fields, "acte_parent");
        var metadata := AttrsField(fields, "metadata");
        if reason.Some? && createdAt.Some? && acteParent.Some? && metadata.Some? then
          if tag == Some("refusal") then Some(Refusal(reason.value, createdAt.value, metadata.value, acteParent.value))
          else Some(Silence(reason.value, createdAt.value, metadata.value, acteParent.value))
        else None
      else None
  }

  /** An order record reads back as the order. */
  lemma {:induction false} OrderRoundTrip(order: Order)
    ensures OrderFromFields(OrderFields(order)) == Some(order)
  {
    IsoRoundTrip(order.createdAt);
    if order.consumedAt.Some? {
      IsoRoundTrip(order.consumedAt.value);
    }
    TextAttrsOfAttrsJson(order.metadata);
  }

  /** Tagging an order record leaves the order it reads back as unchanged. */
  lemma {:induction false} TaggedOrderRoundTrip(order: Order)
    ensures OrderFromFields(OrderFields(order)["type" := JStr("order")]) == Some(order)
  {
    var fields := OrderFields(order)["type" := JStr("order")];
    OrderRoundTrip(order);
    assert forall k :: k != "type" ==> StrField(fields, k) == StrField(OrderFields(order), k);
    assert forall k :: k != "type" ==> AttrsField(fields, k) == AttrsField(OrderFields(order), k);
    assert forall k :: k != "type" ==> OptTimeField(fields, k) == OptTimeField(OrderFields(order), k);
  }

  /** Every field of a Refusal or Silence record reads back. */
  lemma {:induction false} ReasonFieldsRoundTrip(tag: string, reason: string, createdAt: Time, acteParent: string, metadata: Attrs)
    ensures var fields := ReasonFields(tag, reason, createdAt, acteParent, metadata);
      StrField(fields, "type") == Some(tag) && StrField(fields, "reason") == Some(reason) &&
      TimeField(fields, "created_at") == Some(createdAt) && StrField(fields, "acte_parent") == Some(acteParent) &&
      AttrsField(fields, "metadata") == Some(metadata)
  {
    IsoRoundTrip(createdAt);
    TextAttrsOfAttrsJson(metadata);
  }

  /** Every expression record reads back as the expression, so distinct expressions serialise
      differently. */
  lemma {:induction false} ExpressionRoundTrip(e: AuthorityExpression)
    ensures ExpressionFromJson(SerializeExpression(e)) == Some(e)
  {
    match e
    case OrderExpression(order) =>
      TaggedOrderRoundTrip(order);
    case Refusal(reason, createdAt, metadata, acteParent) =>
      ReasonFieldsRoundTrip("refusal", reason, createdAt, acteParent, metadata);
    case Silence(reason, createdAt, metadata, acteParent) =>
      ReasonFieldsRoundTrip("silence", reason, createdAt, acteParent, metadata);
  }

  // ------------------------------------------------------------------
  // Reports
  // ------------------------------------------------------------------

  /** The deployer's last result record, as `_serialize_result` builds it. */
  function SerializeDeployerLast(result: Execution.ExecutionResult): Json {
    JObj(map[
      "status" := JStr(result.status.Value()),
      "deploy_state" := JStr(result.deployState.Value()),
      "order" := SerializeOrder(result.order),
      "facts" := Facts(result.facts),
      "traces" := Traces(result.traces),
      "raw_result" := OptionalText(result.rawResult),
      "raw_error" := OptionalText(result.rawError),
      "started_at" := JStr(IsoFormat(result.startedAt)),
      "finished_at" := JStr(IsoFormat(result.finishedAt))])
  }

  /** The deployer's last result has exactly its nine fields: enum values as text, the order record,
      facts and traces in order, raw texts or null, and both times. */
  lemma DeployerLastShape(result: Execution.ExecutionResult)
    ensures var j := SerializeDeployerLast(result);
      j.JObj? && j.fields.Keys ==
        {"status", "deploy_state", "order", "facts", "traces", "raw_result", "raw_error", "started_at", "finished_at"} &&
      j.fields["status"] == JStr(result.status.Value()) &&
      j.fields["deploy_state"] == JStr(result.deployState.Value()) &&
      j.fields["order"] == SerializeOrder(result.order) &&
      j.fields["facts"].JArr? && |j.fields["facts"].items| == |result.facts| &&
      (forall i :: 0 <= i < |result.facts| ==> j.fields["facts"].items[i] == SerializeFact(result.facts[i])) &&
      j.fields["traces"].JArr? && |j.fields["traces"].items| == |result.traces| &&
      (forall i :: 0 <= i < |result.traces| ==> j.fields["traces"].items[i] == SerializeTrace(result.traces[i])) &&
      j.fields["raw_result"] == OptionalText(result.rawResult) &&
      j.fields["raw_error"] == OptionalText(result.rawError) &&
      j.fields["started_at"] == JStr(IsoFormat(result.startedAt)) &&
      j.fields["finished_at"] == JStr(IsoFormat(result.finishedAt))
  {
  }

  function ReasonText(reason: RunnerCycle.RunnerDecisionReason): Json { JStr(reason.Value()) }

  /** A runner decision: its summary, its reasons as their values in order, and its parent act. */
  function SerializeRunnerDecision(decision: RunnerCycle.RunnerDecision): (j: Json)
    ensures j.JObj? && j.fields.Keys == {"summary", "reasons", "acte_parent"}
    ensures j.fields["summary"] == JStr(decision.summary)
    ensures j.fields["reasons"].JArr? && |j.fields["reasons"].items| == |decision.reasons|
    ensures forall i :: 0 <= i < |decision.reasons| ==>
      j.fields["reasons"].items[i] == JStr(decision.reasons[i].Value())
    ensures j.fields["acte_parent"] == JStr(decision.acteParent)
  {
    JObj(map[
      "summary" := JStr(decision.summary),
      "reasons" := JList(decision.reasons, ReasonText),
      "acte_parent" := JStr(decision.acteParent)])
  }

  function SerializeRuntimeClock(clock: RuntimeClock): Json {
    JObj(map["tick" := JNum(clock.tick), "instant" := JNum(clock.instant), "cycle" := JNum(clock.cycle)])
  }

  function SerializeRuntimeCycle(cycle: RuntimeCycle): Json {
    JObj(map[
      "clock" := SerializeRuntimeClock(cycle.clock),
      "opened_at" := JStr(IsoFormat(cycle.openedAt)),
      "closed_at" := IsoOpt(cycle.closedAt)])
  }

  function SerializeRuntimeContext(context: RuntimeContext): Json {
    JObj(map[
      "state" := JStr(context.state.Value()),
      "cycle" := SerializeRuntimeCycle(context.cycle),
      "facts" := Facts(context.facts),
      "evidence" := JList(context.evidence, SerializeEvidenceSet),
      "traces" := Traces(context.traces)])
  }

  function SerializePreflightReport(report: PreflightReport): Json {
    JObj(map[
      "facts" := Facts(report.facts),
      "primary_evidence" := JList(report.primaryEvidence, SerializeEvidencePrimary),
      "secondary_evidence" := JList(report.secondaryEvidence, SerializeEvidenceSecondary),
      "traces" := Traces(report.traces),
      "status" := JStr(report.status.Value()),
      "blocking" := JBool(report.blocking),
      "created_at" := JStr(IsoFormat(report.createdAt))])
  }

  function SerializeHealthReport(report: HealthReport): Json {
    JObj(map[
      "facts" := Facts(report.facts),
      "primary_evidence" := JList(report.primaryEvidence, SerializeEvidencePrimary),
      "secondary_evidence" := JList(report.secondaryEvidence, SerializeEvidenceSecondary),
      "traces" := Traces(report.traces),
      "observation" := JStr(report.observation.Value()),
      "created_at" := JStr(IsoFormat(report.createdAt))])
  }

  /** The runtime status report. */
  function SerializeRuntimeReport(report: RuntimeReport): (j: Json)
    ensures j.JObj? && "expression" in j.fields && "acte_parent" in j.fields
    ensures j.fields["expression"] == SerializeExpression(report.expression)
    ensures j.fields["acte_parent"] == JStr(report.acteParent)
  {
    JObj(map[
      "context" := SerializeRuntimeContext(report.context),
      "preflight_reports" := JList(report.preflightReports, SerializePreflightReport),
      "health_reports" := JList(report.healthReports, SerializeHealthReport),
      "expression" := SerializeExpression(report.expression),
      "traces" := Traces(report.traces),
      "created_at" := JStr(IsoFormat(report.createdAt)),
      "acte_parent" := JStr(report.acteParent)])
  }

  /** The runner cycle report. */
  function SerializeRunnerCycle(report: RunnerCycle.RunnerRuntimeReport): (j: Json)
    ensures j.JObj? && "decision" in j.fields && "expression" in j.fields
    ensures j.fields["decision"] == SerializeRunnerDecision(report.decision)
    ensures j.fields["expression"] == SerializeExpression(report.expression)
  {
    JObj(map[
      "context" := SerializeRuntimeContext(report.context),
      "decision" := SerializeRunnerDecision(report.decision),
      "expression" := SerializeExpression(report.expression),
      "traces" := Traces(report.traces),
      "preflight_reports" := JList(report.preflightReports, SerializePreflightReport),
      "health_reports" := JList(report.healthReports, SerializeHealthReport),
      "created_at" := JStr(IsoFormat(report.createdAt)),
      "acte_parent" := JStr(report.acteParent)])
  }

  function SerializeGatewayContext(context: Gateway.GatewayContext): Json {
    JObj(map[
      "target" := JStr(context.target),
      "exposure_state" := JStr(context.exposureState.Value()),
      "proof_present" := JBool(context.proofPresent),
      "facts" := Facts(context.facts),
      "traces" := Traces(context.traces)])
  }

  function SerializeGatewayRequest(request: Gateway.GatewayRequest): Json {
    JObj(map[
      "order" := SerializeOptionalOrder(request.order),
      "context" := SerializeGatewayContext(request.context),
      "metadata" := AttrsJson(request.metadata)])
  }

  /** The gateway exposure report. */
  function SerializeGatewayExposure(report: Gateway.GatewayReport): (j: Json)
    ensures j.JObj? && "status" in j.fields && "expression" in j.fields
    ensures j.fields["status"] == JStr(report.status.Value())
    ensures j.fields["expression"] == SerializeExpression(report.expression)
  {
    JObj(map[
      "context" := SerializeGatewayContext(report.context),
      "request" := SerializeGatewayRequest(report.request),
      "status" := JStr(report.status.Value()),
      "expression" := SerializeExpression(report.expression),
      "facts" := Facts(report.facts),
      "traces" := Traces(report.traces),
      "created_at" := JStr(IsoFormat(report.createdAt)),
      "acte_parent" := JStr(report.acteParent)])
  }
}
