/** The decision engine: one pure cycle that fuses the authority check, evidence sufficiency and
    engine-transition legality into exactly one expression, with a fixed precedence. */
module RunnerCycle {
  import opened Values
  import opened Records
  import opened Preflight
  import opened Transitions

  /** The closed registry of normalised decision reasons. */
  datatype RunnerDecisionReason =
    | INSUFFICIENT_PRIMARY_EVIDENCE
    | CRITICAL_DIVERGENCE
    | OUT_OF_AUTHORITY
    | TRANSITION_ALLOWED
    | OBSERVED
  {
    function Value(): string {
      match this
      case INSUFFICIENT_PRIMARY_EVIDENCE => "preuve manquante"
      case CRITICAL_DIVERGENCE => "incohérence critique"
      case OUT_OF_AUTHORITY => "hors autorité"
      case TRANSITION_ALLOWED => "transition autorisée"
      case OBSERVED => "observation confirmée"
    }
  }

  datatype RunnerDecision = RunnerDecision(summary: string, reasons: seq<RunnerDecisionReason>, acteParent: string)

  datatype RunnerRuntimeInput = RunnerRuntimeInput(
    facts: seq<Fact>,
    evidence: seq<EvidenceSet>,
    context: RuntimeContext,
    preflightReports: seq<PreflightReport>,
    healthReports: seq<HealthReport>,
    authorityLevel: AuthorityLevel,
    engineTransition: Option<(EngineState, EngineState)>,
    insufficientEvidenceExpression: ActeIVExpression,
    orderIdentifier: string,
    orderScope: string)

  datatype RunnerRuntimeReport = RunnerRuntimeReport(
    context: RuntimeContext,
    decision: RunnerDecision,
    expression: AuthorityExpression,
    traces: seq<Trace>,
    preflightReports: seq<PreflightReport>,
    healthReports: seq<HealthReport>,
    createdAt: Time,
    acteParent: string)

  // ------------------------------------------------------------------
  // The signals
  // ------------------------------------------------------------------

  /** Some preflight report says the evidence is insufficient. */
  function PreflightInsufficient(reports: seq<PreflightReport>): (r: bool)
    ensures r <==> exists i :: 0 <= i < |reports| && reports[i].status == INSUFFICIENT_EVIDENCE
  {
    if reports == [] then false
    else reports[0].status == INSUFFICIENT_EVIDENCE || PreflightInsufficient(reports[1..])
  }

  /** Evidence is insufficient when there is none or a preflight report says so. */
  predicate EvidenceInsufficient(input: RunnerRuntimeInput) {
    input.evidence == [] || PreflightInsufficient(input.preflightReports)
  }

  /** A supplied engine transition that the allow-table does not list. */
  predicate IllegalTransition(input: RunnerRuntimeInput) {
    input.engineTransition.Some? && input.engineTransition.value !in AllowedEngineTransitions
  }

  // ------------------------------------------------------------------
  // The reference decision
  // ------------------------------------------------------------------

  /** The reasons of a cycle: the authority reason, then the evidence reason, then the transition
      verdict, each present only when its check fires; OBSERVED alone when none fires. */
  function Reasons(input: RunnerRuntimeInput, hasAuthority: AuthorityLevel -> bool): seq<RunnerDecisionReason> {
    var collected :=
      (if !hasAuthority(input.authorityLevel) then [OUT_OF_AUTHORITY] else []) +
      (if EvidenceInsufficient(input) then [INSUFFICIENT_PRIMARY_EVIDENCE] else []) +
      (if input.engineTransition.None? then []
       else if IllegalTransition(input) then [CRITICAL_DIVERGENCE]
       else [TRANSITION_ALLOWED]);
    if collected == [] then [OBSERVED] else collected
  }

  /** The chosen kind: an authority or transition violation refuses; otherwise insufficient evidence
      takes the caller's fallback; otherwise the cycle is silent. */
  function Kind(input: RunnerRuntimeInput, hasAuthority: AuthorityLevel -> bool): ActeIVExpression {
    if !hasAuthority(input.authorityLevel) || IllegalTransition(input) then REFUS
    else if EvidenceInsufficient(input) then input.insufficientEvidenceExpression
    else SILENCE
  }

  function ReasonValues(reasons: seq<RunnerDecisionReason>): (values: seq<string>)
    ensures |values| == |reasons|
    ensures forall i :: 0 <= i < |reasons| ==> values[i] == reasons[i].Value()
  {
    seq(|reasons|, i requires 0 <= i < |reasons| => reasons[i].Value())
  }

  /** The concrete expression for a chosen kind; its reason text is the reasons joined with ", ". */
  function BuildExpression(input: RunnerRuntimeInput, kind: ActeIVExpression, createdAt: Time,
                           reasons: seq<RunnerDecisionReason>): (e: AuthorityExpression)
    ensures KindOf(e) == kind
    ensures kind == ORDER ==>
      e.order == Order(input.orderIdentifier, input.orderScope, createdAt, ACTE_IV, None,
                       map["reason" := Join(ReasonValues(reasons), ", ")])
    ensures kind != ORDER ==>
      e.reason == Join(ReasonValues(reasons), ", ") && e.createdAt == createdAt &&
      e.metadata == map["reason" := e.reason] && e.acteParent == ACTE_IV
  {
    var reasonText := Join(ReasonValues(reasons), ", ");
    match kind
    case ORDER =>
      OrderExpression(Order(input.orderIdentifier, input.orderScope, createdAt, ACTE_IV, None,
                            map["reason" := reasonText]))
    case REFUS => Refusal(reasonText, createdAt, map["reason" := reasonText], ACTE_IV)
    case SILENCE => Silence(reasonText, createdAt, map["reason" := reasonText], ACTE_IV)
  }

  /** The one trace a cycle adds. */
  function RunnerTrace(createdAt: Time, kind: ActeIVExpression, reasons: seq<RunnerDecisionReason>): Trace {
    Trace(createdAt, "runner", map[
      "acte_parent" := ACTE_IV,
      "expression" := kind.Value(),
      "reasons" := Join(ReasonValues(reasons), ",")])
  }

  // ------------------------------------------------------------------
  // The cycle
  // ------------------------------------------------------------------

  /** One decision cycle: the reasons and the kind, then the expression, the decision and the trace
      built from them. */
  method BuildRunnerCycle(input: RunnerRuntimeInput, hasAuthority: AuthorityLevel -> bool, createdAt: Time)
    returns (report: RunnerRuntimeReport)
    ensures report.decision.reasons == Reasons(input, hasAuthority)
    ensures KindOf(report.expression) == Kind(input, hasAuthority)
    ensures report.expression == BuildExpression(input, Kind(input, hasAuthority), createdAt, report.decision.reasons)
    ensures report.decision.summary == "expression=" + Kind(input, hasAuthority).Value()
    ensures report.traces == input.context.traces + [RunnerTrace(createdAt, Kind(input, hasAuthority), report.decision.reasons)]
    ensures report.context == input.context && report.createdAt == createdAt
    ensures report.preflightReports == input.preflightReports && report.healthReports == input.healthReports
  {
    var reasons, kind := Decide(input, hasAuthority);
    var expression := BuildExpression(input, kind, createdAt, reasons);
    var decision := RunnerDecision("expression=" + kind.Value(), reasons, ACTE_IV);
    var traces := input.context.traces + [RunnerTrace(createdAt, kind, reasons)];
    report := RunnerRuntimeReport(input.context, decision, expression, traces,
                                  input.preflightReports, input.healthReports, createdAt, ACTE_IV);
  }

  /** The checks of a cycle in order, collecting reasons and overriding the kind step by step. */
  method Decide(input: RunnerRuntimeInput, hasAuthority: AuthorityLevel -> bool)
    returns (reasons: seq<RunnerDecisionReason>, kind: ActeIVExpression)
    ensures reasons == Reasons(input, hasAuthority) && kind == Kind(input, hasAuthority)
  {
    reasons := [];
    kind := SILENCE;

    if !hasAuthority(input.authorityLevel) {
      reasons := reasons + [OUT_OF_AUTHORITY];
      kind := REFUS;
    }
    if input.evidence == [] || PreflightInsufficient(input.preflightReports) {
      reasons := reasons + [INSUFFICIENT_PRIMARY_EVIDENCE];
      kind := input.insufficientEvidenceExpression;
    }
    if input.engineTransition.Some? {
      if input.engineTransition.value !in AllowedEngineTransitions {
        reasons := reasons + [CRITICAL_DIVERGENCE];
        kind := REFUS;
      } else {
        reasons := reasons + [TRANSITION_ALLOWED];
      }
    }
    if reasons == [] {
      reasons := reasons + [OBSERVED];
    }
    if OUT_OF_AUTHORITY in reasons {
      kind := REFUS;
    }
    if CRITICAL_DIVERGENCE in reasons {
      kind := REFUS;
    }
  }

  // ------------------------------------------------------------------
  // Properties of the decision
  // ------------------------------------------------------------------

  /** An authority or coherence violation among the reasons always resolves to a Refusal,
      whatever the evidence fallback. */
  lemma ViolationForcesRefusal(input: RunnerRuntimeInput, hasAuthority: AuthorityLevel -> bool)
    requires OUT_OF_AUTHORITY in Reasons(input, hasAuthority) || CRITICAL_DIVERGENCE in Reasons(input, hasAuthority)
    ensures Kind(input, hasAuthority) == REFUS
  {
  }

  /** Without a violation, insufficient evidence yields exactly the caller's fallback. */
  lemma InsufficientEvidenceTakesFallback(input: RunnerRuntimeInput, hasAuthority: AuthorityLevel -> bool)
    requires hasAuthority(input.authorityLevel) && !IllegalTransition(input)
    requires EvidenceInsufficient(input)
    ensures Kind(input, hasAuthority) == input.insufficientEvidenceExpression
    ensures INSUFFICIENT_PRIMARY_EVIDENCE in Reasons(input, hasAuthority)
  {
  }

  /** The transition check adds CRITICAL_DIVERGENCE for an unlisted pair, TRANSITION_ALLOWED for a
      listed one, and neither when no pair is supplied. */
  lemma TransitionVerdict(input: RunnerRuntimeInput, hasAuthority: AuthorityLevel -> bool)
    ensures CRITICAL_DIVERGENCE in Reasons(input, hasAuthority) <==> IllegalTransition(input)
    ensures TRANSITION_ALLOWED in Reasons(input, hasAuthority) <==>
      input.engineTransition.Some? && input.engineTransition.value in AllowedEngineTransitions
  {
  }

  /** The reasons are never empty, and OBSERVED appears exactly when no check fired, as the only reason. */
  lemma ObservedOnlyWhenClean(input: RunnerRuntimeInput, hasAuthority: AuthorityLevel -> bool)
    ensures Reasons(input, hasAuthority) != []
    ensures OBSERVED in Reasons(input, hasAuthority) <==> Reasons(input, hasAuthority) == [OBSERVED]
    ensures OBSERVED in Reasons(input, hasAuthority) <==>
      hasAuthority(input.authorityLevel) && !EvidenceInsufficient(input) && input.engineTransition.None?
  {
  }

  /** A clean cycle is silent; an Order can only come from an ORDER evidence fallback. */
  lemma OrderOnlyFromFallback(input: RunnerRuntimeInput, hasAuthority: AuthorityLevel -> bool)
    ensures hasAuthority(input.authorityLevel) && !EvidenceInsufficient(input) && !IllegalTransition(input)
      ==> Kind(input, hasAuthority) == SILENCE
    ensures Kind(input, hasAuthority) == ORDER ==>
      input.insufficientEvidenceExpression == ORDER && EvidenceInsufficient(input) &&
      hasAuthority(input.authorityLevel) && !IllegalTransition(input)
  {
  }

  /** The position of a reason in the fixed order: authority, evidence, then transition or OBSERVED. */
  function Rank(r: RunnerDecisionReason): nat {
    match r
    case OUT_OF_AUTHORITY => 0
    case INSUFFICIENT_PRIMARY_EVIDENCE => 1
    case _ => 2
  }

  /** Reasons appear in strictly increasing rank, hence each at most once. */
  lemma ReasonsOrderedAndDistinct(input: RunnerRuntimeInput, hasAuthority: AuthorityLevel -> bool)
    ensures var rs := Reasons(input, hasAuthority);
      forall i, j :: 0 <= i < j < |rs| ==> Rank(rs[i]) < Rank(rs[j]) && rs[i] != rs[j]
  {
  }

  /** The decision reads neither the health reports nor any preflight status other than
      INSUFFICIENT_EVIDENCE. */
  lemma DecisionIgnoresHealthAndOtherStatuses(
    input: RunnerRuntimeInput, health: seq<HealthReport>, preflight: seq<PreflightReport>,
    hasAuthority: AuthorityLevel -> bool)
    requires forall i :: 0 <= i < |preflight| && preflight[i].status == INSUFFICIENT_EVIDENCE ==>
      exists j :: 0 <= j < |input.preflightReports| && input.preflightReports[j].status == INSUFFICIENT_EVIDENCE
    requires forall j :: 0 <= j < |input.preflightReports| && input.preflightReports[j].status == INSUFFICIENT_EVIDENCE ==>
      exists i :: 0 <= i < |preflight| && preflight[i].status == INSUFFICIENT_EVIDENCE
    ensures var other := input.(healthReports := health, preflightReports := preflight);
      Reasons(other, hasAuthority) == Reasons(input, hasAuthority) &&
      Kind(other, hasAuthority) == Kind(input, hasAuthority)
  {
    var other := input.(healthReports := health, preflightReports := preflight);
    assert PreflightInsufficient(other.preflightReports) == PreflightInsufficient(input.preflightReports);
  }

  /** Granted authority, sufficient evidence and the listed pair (UP, FAILED): the table allows the
      pair, so the cycle records TRANSITION_ALLOWED and stays silent. */
  lemma UpToFailedIsAllowed(input: RunnerRuntimeInput, hasAuthority: AuthorityLevel -> bool)
    requires hasAuthority(input.authorityLevel) && !EvidenceInsufficient(input)
    requires input.engineTransition == Some((UP, FAILED))
    ensures Reasons(input, hasAuthority) == [TRANSITION_ALLOWED]
    ensures Kind(input, hasAuthority) == SILENCE
  {
  }
}
