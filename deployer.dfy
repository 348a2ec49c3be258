/** The dry-run deployer: the minimal order contract and the consume-once application of an order. */
module Deployer {
  import opened Values

  /** The application outcomes of the deployer. */
  datatype DeployOutcome = APPLIED | REJECTED | FAILED | UNKNOWN {
    function Value(): string {
      match this
      case APPLIED => "APPLIED"
      case REJECTED => "REJECTED"
      case FAILED => "FAILED"
      case UNKNOWN => "UNKNOWN"
    }
  }

  /** The observable result of applying one order. */
  datatype DeployResult = DeployResult(outcome: DeployOutcome, order: Order, traces: seq<Trace>, facts: seq<Fact>)

  datatype DeployerConfig = DeployerConfig(acteParent: string, dryRun: bool, execEnabled: bool)

  /** The configuration every field of which is left at its default. */
  const DefaultDeployerConfig := DeployerConfig(ACTE_IV, true, false)

  /** The only actions an order payload may name. */
  const AllowedActions: set<string> := {"deploy.up", "deploy.down", "deploy.restart"}

  /** `payload.get(key)` read for truthiness: an absent key reads as the empty string. */
  function PayloadText(payload: Attrs, key: string): (s: string)
    ensures key !in payload ==> s == ""
    ensures key in payload ==> s == payload[key]
  {
    if key in payload then payload[key] else ""
  }

  function Action(order: Order): string { PayloadText(order.metadata, "action") }
  function Target(order: Order): string { PayloadText(order.metadata, "target") }
  function ReleaseRef(order: Order): string { PayloadText(order.metadata, "release_ref") }

  // ------------------------------------------------------------------
  // The order contract
  // ------------------------------------------------------------------

  /** The codes the contract check can report; `Code` is the text the source writes. */
  datatype ContractError =
    | MissingScope
    | MissingIdentifier
    | MissingCreatedAt
    | MissingPayloadAction
    | InvalidPayloadAction
    | MissingPayloadTarget
    | MissingPayloadReleaseRef
  {
    function Code(): string {
      match this
      case MissingScope => "missing_scope"
      case MissingIdentifier => "missing_identifier"
      case MissingCreatedAt => "missing_created_at"
      case MissingPayloadAction => "missing_payload_action"
      case InvalidPayloadAction => "invalid_payload_action"
      case MissingPayloadTarget => "missing_payload_target"
      case MissingPayloadReleaseRef => "missing_payload_release_ref"
    }

    /** The position of the check that reports this code. */
    function Rank(): nat {
      match this
      case MissingScope => 0
      case MissingIdentifier => 1
      case MissingCreatedAt => 2
      case MissingPayloadAction => 3
      case InvalidPayloadAction => 4
      case MissingPayloadTarget => 5
      case MissingPayloadReleaseRef => 6
    }
  }

  /** The texts of a list of codes. */
  function Codes(errors: seq<ContractError>): (codes: seq<string>)
    ensures |codes| == |errors|
    ensures forall i :: 0 <= i < |errors| ==> codes[i] == errors[i].Code()
  {
    seq(|errors|, i requires 0 <= i < |errors| => errors[i].Code())
  }

  function ScopeErrors(order: Order): seq<ContractError> {
    if order.scope == "" then [MissingScope] else []
  }

  function IdentifierErrors(order: Order): seq<ContractError> {
    if order.identifier == "" then [MissingIdentifier] else []
  }

  /** A missing action and an action outside the allowed set are reported by distinct codes. */
  function ActionErrors(order: Order): seq<ContractError> {
    if Action(order) == "" then [MissingPayloadAction]
    else if Action(order) !in AllowedActions then [InvalidPayloadAction]
    else []
  }

  function TargetErrors(order: Order): seq<ContractError> {
    if Target(order) == "" then [MissingPayloadTarget] else []
  }

  function ReleaseRefErrors(order: Order): seq<ContractError> {
    if ReleaseRef(order) == "" then [MissingPayloadReleaseRef] else []
  }

  /** The contract errors of an order, in the order the checks run. The creation time is a
      timestamp, which is always truthy, so MissingCreatedAt is never among them. */
  function ContractErrors(order: Order): seq<ContractError> {
    ScopeErrors(order) + IdentifierErrors(order) + ActionErrors(order) + TargetErrors(order) + ReleaseRefErrors(order)
  }

  /** Checks the order contract one field after another, appending each error found. */
  method ValidateOrderContract(order: Order) returns (errors: seq<ContractError>)
    ensures errors == ContractErrors(order)
  {
    errors := [];
    if order.scope == "" {
      errors := errors + [MissingScope];
    }
    if order.identifier == "" {
      errors := errors + [MissingIdentifier];
    }
    assert errors == ScopeErrors(order) + IdentifierErrors(order);
    var payload := order.metadata;
    var action := PayloadText(payload, "action");
    var target := PayloadText(payload, "target");
    var releaseRef := PayloadText(payload, "release_ref");
    if action == "" {
      errors := errors + [MissingPayloadAction];
    } else if action !in AllowedActions {
      errors := errors + [InvalidPayloadAction];
    }
    assert errors == ScopeErrors(order) + IdentifierErrors(order) + ActionErrors(order);
    if target == "" {
      errors := errors + [MissingPayloadTarget];
    }
    if releaseRef == "" {
      errors := errors + [MissingPayloadReleaseRef];
    }
  }

  /** An order is valid when its scope, identifier, target and release reference are non-empty and
      it names an allowed action. */
  predicate Conforms(order: Order) {
    order.scope != "" && order.identifier != "" && Action(order) in AllowedActions &&
    Target(order) != "" && ReleaseRef(order) != ""
  }

  /** The contract reports no error exactly for a conforming order. */
  lemma ContractErrorsEmptyIffConforms(order: Order)
    ensures ContractErrors(order) == [] <==> Conforms(order)
  {
    if Conforms(order) {
      assert Action(order) != "" by {
        assert "" !in AllowedActions;
      }
    }
  }

  /** Each check reports its own code, independently of the other checks. */
  lemma ContractErrorsReportEachGap(order: Order)
    ensures MissingScope in ContractErrors(order) <==> order.scope == ""
    ensures MissingIdentifier in ContractErrors(order) <==> order.identifier == ""
    ensures MissingPayloadAction in ContractErrors(order) <==> Action(order) == ""
    ensures InvalidPayloadAction in ContractErrors(order) <==>
      Action(order) != "" && Action(order) !in AllowedActions
    ensures MissingPayloadTarget in ContractErrors(order) <==> Target(order) == ""
    ensures MissingPayloadReleaseRef in ContractErrors(order) <==> ReleaseRef(order) == ""
    ensures MissingCreatedAt !in ContractErrors(order)
  {
    var s, i, a, t, r := ScopeErrors(order), IdentifierErrors(order), ActionErrors(order),
                         TargetErrors(order), ReleaseRefErrors(order);
    assert ContractErrors(order) == s + i + a + t + r;
    forall e: ContractError
      ensures e in ContractErrors(order) <==> e in s || e in i || e in a || e in t || e in r
    {
    }
  }

  /** An order with none of action, target and release reference reports all three, in this order,
      after the scope and identifier codes. */
  lemma EmptyPayloadReportsAllThree(order: Order)
    requires Action(order) == "" && Target(order) == "" && ReleaseRef(order) == ""
    ensures var errs := ContractErrors(order);
      |errs| >= 3 && errs[|errs| - 3..] == [MissingPayloadAction, MissingPayloadTarget, MissingPayloadReleaseRef]
  {
  }

  /** The invalid-action and missing-action codes never appear together. */
  lemma ActionCodesExclusive(order: Order)
    ensures !(MissingPayloadAction in ContractErrors(order) && InvalidPayloadAction in ContractErrors(order))
  {
    ContractErrorsReportEachGap(order);
  }

  /** The codes appear in strictly increasing check order: scope, identifier, created_at, action,
      target, release_ref; so none appears twice. */
  lemma ContractErrorsOrdered(order: Order)
    ensures var errs := ContractErrors(order);
      forall i, j :: 0 <= i < j < |errs| ==> errs[i].Rank() < errs[j].Rank()
  {
  }

  // ------------------------------------------------------------------
  // Application
  // ------------------------------------------------------------------

  /** `str(flag).lower()`. */
  function BoolText(b: bool): (s: string)
    ensures s == "true" <==> b
    ensures s == "false" <==> !b
  {
    if b then "true" else "false"
  }

  /** The errors an application reports: re-consumption alone, or the contract errors. */
  function ApplyErrors(order: Order): seq<string> {
    if order.consumedAt.Some? then ["order_already_consumed"] else Codes(ContractErrors(order))
  }

  /** Applies an order at `timestamp` (the clock read of the source) without executing anything. */
  function Apply(config: DeployerConfig, order: Order, timestamp: Time): (r: DeployResult)
    ensures r.outcome == APPLIED || r.outcome == REJECTED
    ensures order.consumedAt.Some? ==> r.outcome == REJECTED && r.order == order
    ensures order.consumedAt.None? ==> r.order == order.(consumedAt := Some(timestamp))
    ensures order.consumedAt.None? ==> (r.outcome == APPLIED <==> Conforms(order))
    ensures |r.facts| == 2
    ensures r.facts[0] == Fact("deploy.attempted", map[
      "acte_parent" := config.acteParent, "order_id" := order.identifier, "scope" := order.scope,
      "dry_run" := BoolText(config.dryRun)])
    ensures r.facts[1] == Fact("deploy.outcome", map["order_id" := order.identifier, "outcome" := r.outcome.Value()])
    ensures |r.traces| == 1 && r.traces[0].actor == "deployer" && r.traces[0].timestamp == timestamp
    ensures r.traces[0].metadata.Keys ==
      {"acte_parent", "event", "order_id", "outcome", "dry_run"} + (if ApplyErrors(order) != [] then {"errors"} else {})
    ensures r.traces[0].metadata["acte_parent"] == config.acteParent && r.traces[0].metadata["event"] == "apply"
    ensures r.traces[0].metadata["order_id"] == order.identifier && r.traces[0].metadata["outcome"] == r.outcome.Value()
    ensures r.traces[0].metadata["dry_run"] == BoolText(config.dryRun)
    ensures "errors" in r.traces[0].metadata <==> ApplyErrors(order) != []
    ensures "errors" in r.traces[0].metadata ==> r.traces[0].metadata["errors"] == Join(ApplyErrors(order), ",")
  {
    var errors := ApplyErrors(order);
    var outcome := if order.consumedAt.Some? || errors != [] then REJECTED else APPLIED;
    var consumedOrder := if order.consumedAt.Some? then order else order.(consumedAt := Some(timestamp));
    var facts := [
      Fact("deploy.attempted", map[
        "acte_parent" := config.acteParent,
        "order_id" := order.identifier,
        "scope" := order.scope,
        "dry_run" := BoolText(config.dryRun)]),
      Fact("deploy.outcome", map["order_id" := order.identifier, "outcome" := outcome.Value()])
    ];
    var baseMetadata := map[
      "acte_parent" := config.acteParent,
      "event" := "apply",
      "order_id" := order.identifier,
      "outcome" := outcome.Value(),
      "dry_run" := BoolText(config.dryRun)];
    var metadata := if errors != [] then baseMetadata["errors" := Join(errors, ",")] else baseMetadata;
    ContractErrorsEmptyIffConforms(order);
    DeployResult(outcome, consumedOrder, [Trace(timestamp, "deployer", metadata)], facts)
  }

  /** Re-consumption is rejected with exactly one error code and leaves the order untouched. */
  lemma ReapplyRejected(config: DeployerConfig, order: Order, timestamp: Time)
    requires order.consumedAt.Some?
    ensures Apply(config, order, timestamp).outcome == REJECTED
    ensures Apply(config, order, timestamp).order == order
    ensures ApplyErrors(order) == ["order_already_consumed"]
    ensures Apply(config, order, timestamp).traces[0].metadata["errors"] == "order_already_consumed"
  {
  }

  /** At most once: whatever the first application returned, applying its order again is rejected
      and keeps the consumption time of the first application. */
  lemma {:induction false} AtMostOnce(config: DeployerConfig, order: Order, first: Time, second: Time)
    ensures var once := Apply(config, order, first);
      var twice := Apply(config, once.order, second);
      twice.outcome == REJECTED && twice.order == once.order && once.order.consumedAt.Some? &&
      (order.consumedAt.None? ==> twice.order.consumedAt == Some(first))
  {
    var once := Apply(config, order, first);
    assert once.order.consumedAt.Some?;
    ReapplyRejected(config, once.order, second);
  }
}
