/** The gateway exposure report: a status derived from the proof flag, the request's order and the
    exposure state, and a fixed table from status to the one expression it allows. */
module Gateway {
  import opened Values

  /** Declared exposure states; no network action stands behind them. */
  datatype GatewayExposureState = OPEN | CLOSED | UNKNOWN {
    function Value(): string {
      match this
      case OPEN => "OPEN"
      case CLOSED => "CLOSED"
      case UNKNOWN => "UNKNOWN"
    }
  }

  datatype GatewayReportStatus = CONFIRMED | INSUFFICIENT_EVIDENCE | INCOHERENT {
    function Value(): string {
      match this
      case CONFIRMED => "confirmed"
      case INSUFFICIENT_EVIDENCE => "insufficient_evidence"
      case INCOHERENT => "incoherent"
    }
  }

  datatype GatewayContext = GatewayContext(
    target: string,
    exposureState: GatewayExposureState,
    proofPresent: bool,
    facts: seq<Fact>,
    traces: seq<Trace>)

  datatype GatewayRequest = GatewayRequest(order: Option<Order>, context: GatewayContext, metadata: Attrs)

  datatype GatewayReport = GatewayReport(
    context: GatewayContext,
    request: GatewayRequest,
    status: GatewayReportStatus,
    expression: AuthorityExpression,
    facts: seq<Fact>,
    traces: seq<Trace>,
    createdAt: Time,
    acteParent: string)

  datatype GatewayActeIVMapping = GatewayActeIVMapping(
    status: GatewayReportStatus,
    allowedExpressions: seq<ActeIVExpression>,
    defaultExpression: ActeIVExpression,
    note: string)

  const GatewayActeIVMappingTable: map<GatewayReportStatus, GatewayActeIVMapping> := map[
    CONFIRMED := GatewayActeIVMapping(
      CONFIRMED, [ORDER], ORDER,
      "Exposition confirmée + ordre valide ⇒ Order consommé."),
    INSUFFICIENT_EVIDENCE := GatewayActeIVMapping(
      INSUFFICIENT_EVIDENCE, [SILENCE], SILENCE,
      "Preuve manquante ⇒ Silence."),
    INCOHERENT := GatewayActeIVMapping(
      INCOHERENT, [REFUS], REFUS,
      "Incohérence / ordre invalide ⇒ Refus traçable.")
  ]

  /** The table covers every status, names its key, allows exactly its default, and pairs
      CONFIRMED with ORDER, INSUFFICIENT_EVIDENCE with SILENCE and INCOHERENT with REFUS. */
  lemma MappingIsTotalAndSingleton()
    ensures forall s: GatewayReportStatus ::
              s in GatewayActeIVMappingTable &&
              GatewayActeIVMappingTable[s].status == s &&
              GatewayActeIVMappingTable[s].allowedExpressions == [GatewayActeIVMappingTable[s].defaultExpression]
    ensures GatewayActeIVMappingTable[CONFIRMED].defaultExpression == ORDER
    ensures GatewayActeIVMappingTable[INSUFFICIENT_EVIDENCE].defaultExpression == SILENCE
    ensures GatewayActeIVMappingTable[INCOHERENT].defaultExpression == REFUS
  {
    forall s: GatewayReportStatus
      ensures s in GatewayActeIVMappingTable && GatewayActeIVMappingTable[s].status == s
      ensures GatewayActeIVMappingTable[s].allowedExpressions == [GatewayActeIVMappingTable[s].defaultExpression]
    {
      match s
      case CONFIRMED =>
      case INSUFFICIENT_EVIDENCE =>
      case INCOHERENT =>
    }
  }

  /** The request carries an order with a non-empty identifier and scope. */
  predicate HasValidOrder(request: GatewayRequest) {
    request.order.Some? && request.order.value.identifier != "" && request.order.value.scope != ""
  }

  /** The status decision tree. */
  function DeriveStatus(request: GatewayRequest): (status: GatewayReportStatus)
    ensures !request.context.proofPresent ==>
      (status == INSUFFICIENT_EVIDENCE <==> request.context.exposureState == GatewayExposureState.UNKNOWN) &&
      (status == INCOHERENT <==> request.context.exposureState != GatewayExposureState.UNKNOWN)
    ensures request.context.proofPresent && !HasValidOrder(request) ==> status == INCOHERENT
    ensures request.context.proofPresent && HasValidOrder(request) ==>
      (status == INSUFFICIENT_EVIDENCE <==> request.context.exposureState == GatewayExposureState.UNKNOWN) &&
      (status == CONFIRMED <==> request.context.exposureState != GatewayExposureState.UNKNOWN)
  {
    var context := request.context;
    if !context.proofPresent then
      if context.exposureState == GatewayExposureState.UNKNOWN then INSUFFICIENT_EVIDENCE else INCOHERENT
    else if request.order.None? then INCOHERENT
    else if request.order.value.identifier == "" || request.order.value.scope == "" then INCOHERENT
    else if context.exposureState == GatewayExposureState.UNKNOWN then INSUFFICIENT_EVIDENCE
    else CONFIRMED
  }

  /** CONFIRMED is reached only with proof, a valid order and a known exposure state. */
  lemma ConfirmedNeedsProofAndValidOrder(request: GatewayRequest)
    ensures DeriveStatus(request) == CONFIRMED <==>
      request.context.proofPresent && HasValidOrder(request) &&
      request.context.exposureState != GatewayExposureState.UNKNOWN
  {
  }

  /** The expression for a chosen kind. An Order re-issues the request's order, consumed at the
      report's creation time. */
  function BuildExpression(request: GatewayRequest, kind: ActeIVExpression, createdAt: Time): (e: AuthorityExpression)
    ensures kind == ORDER && request.order.Some? ==>
      e == OrderExpression(request.order.value.(consumedAt := Some(createdAt)))
    ensures kind == ORDER && request.order.None? ==> e == Refusal("ordre manquant", createdAt, map["reason" := "ordre manquant"], ACTE_IV)
    ensures kind == REFUS ==> e.Refusal? && e.reason == "ordre invalide ou incohérent" && e.createdAt == createdAt
    ensures kind == SILENCE ==> e.Silence? && e.reason == "preuve manquante" && e.createdAt == createdAt
  {
    match kind
    case ORDER =>
      if request.order.None? then Refusal("ordre manquant", createdAt, map["reason" := "ordre manquant"], ACTE_IV)
      else
        var order := request.order.value;
        OrderExpression(Order(order.identifier, order.scope, order.createdAt, order.acteParent, Some(createdAt), order.metadata))
    case REFUS =>
      Refusal("ordre invalide ou incohérent", createdAt, map["reason" := "ordre invalide ou incohérent"], ACTE_IV)
    case SILENCE =>
      Silence("preuve manquante", createdAt, map["reason" := "preuve manquante"], ACTE_IV)
  }

  /** The one fact a report adds. */
  function StatusFact(request: GatewayRequest, status: GatewayReportStatus): Fact {
    Fact("gateway.exposure.status", map[
      "target" := request.context.target,
      "exposure_state" := request.context.exposureState.Value(),
      "status" := status.Value()])
  }

  /** The one trace a report adds. */
  function StatusTrace(request: GatewayRequest, status: GatewayReportStatus, kind: ActeIVExpression, createdAt: Time): Trace {
    Trace(createdAt, "gateway", map[
      "acte_parent" := ACTE_IV,
      "status" := status.Value(),
      "expression" := kind.Value(),
      "target" := request.context.target])
  }

  /** A purely declarative exposure report: the table's default expression for the derived status. */
  function BuildGatewayReport(request: GatewayRequest, createdAt: Time): (r: GatewayReport)
    ensures r.status == DeriveStatus(request)
    ensures KindOf(r.expression) == GatewayActeIVMappingTable[r.status].defaultExpression
    ensures r.facts == request.context.facts + [StatusFact(request, r.status)]
    ensures r.traces == request.context.traces +
      [StatusTrace(request, r.status, GatewayActeIVMappingTable[r.status].defaultExpression, createdAt)]
    ensures r.context == request.context && r.request == request && r.createdAt == createdAt
  {
    MappingIsTotalAndSingleton();
    var status := DeriveStatus(request);
    var mapping := GatewayActeIVMappingTable[status];
    var expression := BuildExpression(request, mapping.defaultExpression, createdAt);
    GatewayReport(request.context, request, status, expression,
                  request.context.facts + [StatusFact(request, status)],
                  request.context.traces + [StatusTrace(request, status, mapping.defaultExpression, createdAt)],
                  createdAt, ACTE_IV)
  }

  /** A confirmed report re-issues the request's order with `consumedAt` set to the report time; the
      missing-order Refusal is never produced, since CONFIRMED needs an order. */
  lemma {:induction false} ConfirmedIssuesConsumedOrder(request: GatewayRequest, createdAt: Time)
    requires DeriveStatus(request) == CONFIRMED
    ensures request.order.Some?
    ensures BuildGatewayReport(request, createdAt).expression ==
      OrderExpression(request.order.value.(consumedAt := Some(createdAt)))
  {
    ConfirmedNeedsProofAndValidOrder(request);
    MappingIsTotalAndSingleton();
  }

  /** Whatever the request, the report's expression is the one its status allows, and a Refusal
      always gives the invalid-or-incoherent reason. */
  lemma {:induction false} ReportExpressionAllowed(request: GatewayRequest, createdAt: Time)
    ensures var r := BuildGatewayReport(request, createdAt);
      KindOf(r.expression) in GatewayActeIVMappingTable[r.status].allowedExpressions &&
      (r.expression.Refusal? ==> r.expression.reason == "ordre invalide ou incohérent")
  {
    MappingIsTotalAndSingleton();
    var r := BuildGatewayReport(request, createdAt);
    if r.status == CONFIRMED {
      ConfirmedIssuesConsumedOrder(request, createdAt);
    }
  }
}
