/** Preflight report contracts: the four report statuses, the report record, and the fixed table
    saying which expression kinds each status allows. The table never picks an expression itself. */
module Preflight {
  import opened Values

  datatype PreflightStatus =
    | INSUFFICIENT_EVIDENCE
    | INCOHERENT_EVIDENCE
    | CONDITIONS_SATISFIED
    | CONDITIONS_UNSATISFIED
  {
    function Value(): string {
      match this
      case INSUFFICIENT_EVIDENCE => "insufficient_evidence"
      case INCOHERENT_EVIDENCE => "incoherent_evidence"
      case CONDITIONS_SATISFIED => "conditions_satisfied"
      case CONDITIONS_UNSATISFIED => "conditions_unsatisfied"
    }
  }

  datatype PreflightReport = PreflightReport(
    facts: seq<Fact>,
    primaryEvidence: seq<EvidencePrimary>,
    secondaryEvidence: seq<EvidenceSecondary>,
    traces: seq<Trace>,
    status: PreflightStatus,
    blocking: bool,
    createdAt: Time)

  datatype ReportActeIVMapping = ReportActeIVMapping(
    status: PreflightStatus,
    allowedExpressions: seq<ActeIVExpression>,
    defaultExpression: Option<ActeIVExpression>,
    note: string)

  const PreflightActeIVMapping: map<PreflightStatus, ReportActeIVMapping> := map[
    INSUFFICIENT_EVIDENCE := ReportActeIVMapping(
      INSUFFICIENT_EVIDENCE, [REFUS, SILENCE], None,
      "Rapport bloquant: preuve manquante, aucun ordre émis par défaut."),
    INCOHERENT_EVIDENCE := ReportActeIVMapping(
      INCOHERENT_EVIDENCE, [REFUS], None,
      "Preuve incohérente: aucun ordre émis par défaut."),
    CONDITIONS_UNSATISFIED := ReportActeIVMapping(
      CONDITIONS_UNSATISFIED, [REFUS], None,
      "Conditions non satisfaites: aucun ordre émis par défaut."),
    CONDITIONS_SATISFIED := ReportActeIVMapping(
      CONDITIONS_SATISFIED, [ORDER, SILENCE], None,
      "Conditions satisfaites: aucune émission par défaut.")
  ]

  /** The table covers every status, each entry names its own key, and no entry has a default. */
  lemma MappingIsTotalAndSelfNamed()
    ensures forall s: PreflightStatus :: s in PreflightActeIVMapping
    ensures forall s: PreflightStatus :: PreflightActeIVMapping[s].status == s
    ensures forall s: PreflightStatus :: PreflightActeIVMapping[s].defaultExpression == None
  {
    forall s: PreflightStatus
      ensures s in PreflightActeIVMapping && PreflightActeIVMapping[s].status == s
      ensures PreflightActeIVMapping[s].defaultExpression == None
    {
      match s
      case INSUFFICIENT_EVIDENCE =>
      case INCOHERENT_EVIDENCE =>
      case CONDITIONS_SATISFIED =>
      case CONDITIONS_UNSATISFIED =>
    }
  }

  /** An Order is allowed under exactly one status: satisfied conditions. */
  lemma OrderOnlyWhenConditionsSatisfied()
    ensures forall s: PreflightStatus ::
      s in PreflightActeIVMapping &&
      (ORDER in PreflightActeIVMapping[s].allowedExpressions <==> s == CONDITIONS_SATISFIED)
  {
    MappingIsTotalAndSelfNamed();
    forall s: PreflightStatus
      ensures ORDER in PreflightActeIVMapping[s].allowedExpressions <==> s == CONDITIONS_SATISFIED
    {
      var allowed := PreflightActeIVMapping[s].allowedExpressions;
      match s
      case INSUFFICIENT_EVIDENCE => assert allowed == [REFUS, SILENCE];
      case INCOHERENT_EVIDENCE => assert allowed == [REFUS];
      case CONDITIONS_SATISFIED => assert allowed[0] == ORDER;
      case CONDITIONS_UNSATISFIED => assert allowed == [REFUS];
    }
  }

  /** What each blocking status allows. */
  lemma BlockingStatusesAllowRefusal()
    ensures PreflightActeIVMapping[INCOHERENT_EVIDENCE].allowedExpressions == [REFUS]
    ensures PreflightActeIVMapping[CONDITIONS_UNSATISFIED].allowedExpressions == [REFUS]
    ensures PreflightActeIVMapping[INSUFFICIENT_EVIDENCE].allowedExpressions == [REFUS, SILENCE]
  {
  }

  /** The report constructor keeps every argument as given. */
  function BuildPreflightReport(
    facts: seq<Fact>,
    primaryEvidence: seq<EvidencePrimary>,
    secondaryEvidence: seq<EvidenceSecondary>,
    traces: seq<Trace>,
    status: PreflightStatus,
    blocking: bool,
    createdAt: Time): (r: PreflightReport)
    ensures r.facts == facts && r.primaryEvidence == primaryEvidence
    ensures r.secondaryEvidence == secondaryEvidence && r.traces == traces
    ensures r.status == status && r.blocking == blocking && r.createdAt == createdAt
  {
    PreflightReport(facts, primaryEvidence, secondaryEvidence, traces, status, blocking, createdAt)
  }
}
