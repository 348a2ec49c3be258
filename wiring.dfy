/** The strict runner-to-deployer-to-ledger wiring: one step turns an optional order into exactly
    one expression, calls the deployer at most once, and builds the matching ledger entry. */
module Wiring {
  import opened Values
  import opened Deployer
  import opened Emit
  import opened Ledger

  datatype WiringResult = WiringResult(
    expression: AuthorityExpression,
    applyResult: Option<DeployResult>,
    ledgerEntry: LedgerEntry)

  /** A link trace: parent act and event, updated with the given metadata when there is any. */
  function LinkTrace(acteParent: string, event: string, timestamp: Time, metadata: Attrs := map[]): (t: Trace)
    ensures t.actor == "link" && t.timestamp == timestamp
    ensures t.metadata.Keys == {"acte_parent", "event"} + metadata.Keys
    ensures forall k :: k in metadata ==> t.metadata[k] == metadata[k]
    ensures "event" !in metadata ==> t.metadata["event"] == event
    ensures "acte_parent" !in metadata ==> t.metadata["acte_parent"] == acteParent
  {
    Trace(timestamp, "link", map["acte_parent" := acteParent, "event" := event] + metadata)
  }

  function LinkFact(description: string, attributes: Attrs): Fact {
    Fact(description, attributes)
  }

  /** The errors text a trace carries, empty when it has none. */
  function TraceErrors(trace: Trace): string {
    PayloadText(trace.metadata, "errors")
  }

  /** The first trace, in order, whose errors text is non-empty; None when there is none. */
  function ExtractErrors(traces: seq<Trace>): (r: Option<string>)
    ensures r.None? <==> forall i :: 0 <= i < |traces| ==> TraceErrors(traces[i]) == ""
    ensures r.Some? ==> (r.value != "" &&
      exists i :: 0 <= i < |traces| && r.value == TraceErrors(traces[i]) && NoErrorsBefore(traces, i))
  {
    if traces == [] then None
    else if TraceErrors(traces[0]) != "" then
      assert NoErrorsBefore(traces, 0);
      Some(TraceErrors(traces[0]))
    else
      var rest := ExtractErrors(traces[1..]);
      if rest.Some? then
        var i :| 0 <= i < |traces[1..]| && rest.value == TraceErrors(traces[1..][i]) && NoErrorsBefore(traces[1..], i);
        assert NoErrorsBefore(traces, i + 1);
        rest
      else
        assert forall i :: 0 < i < |traces| ==> traces[i] == traces[1..][i - 1];
        rest
  }

  /** No trace before position `i` carries errors. */
  predicate NoErrorsBefore(traces: seq<Trace>, i: int)
    requires 0 <= i <= |traces|
  {
    forall j :: 0 <= j < i ==> TraceErrors(traces[j]) == ""
  }

  /** The Refusal reason for an outcome other than APPLIED. */
  function RefusalReason(outcome: DeployOutcome, errors: Option<string>): string {
    var base := "deployer_" + Lower(outcome.Value());
    if errors.Some? then base + ":" + errors.value else base
  }

  function OrElseEmpty(errors: Option<string>): string {
    if errors.Some? then errors.value else ""
  }

  /** One wiring step. `timestamp` is the step's clock read and `emittedAt` the clock read of the
      emitted Refusal or Silence; `apply` is the deployer. */
  function WireStep(order: Option<Order>, apply: Order -> DeployResult, timestamp: Time, emittedAt: Time,
                    acteParent: string := ACTE_IV): (r: WiringResult)
    ensures r.ledgerEntry.expression == Some(r.expression)
    ensures r.ledgerEntry.createdAt == timestamp && r.ledgerEntry.evidence == []
    ensures r.ledgerEntry.decision.facts == r.ledgerEntry.facts
    ensures r.applyResult.Some? <==> order.Some? && order.value.consumedAt.None?
    ensures r.applyResult.Some? ==> r.applyResult.value == apply(order.value)
    ensures order.Some? ==> r.ledgerEntry.acteParent == order.value.acteParent
    ensures order.None? ==> r.ledgerEntry.acteParent == acteParent
  {
    if order.None? then
      var silence := EmitSilence("no_order", emittedAt, None, acteParent);
      var facts := [LinkFact("link.silence", map["acte_parent" := acteParent, "reason" := silence.reason])];
      var traces := [LinkTrace(acteParent, "silence", timestamp)];
      var entry := LedgerEntry(acteParent, timestamp, facts, [], Decision("link.silence", facts), traces, Some(silence));
      WiringResult(silence, None, entry)
    else
      var order := order.value;
      var acteParent := order.acteParent;
      if order.consumedAt.Some? then
        var refusal := EmitRefusal("order_already_consumed", emittedAt, Some(map["order_id" := order.identifier]), acteParent);
        var facts := [LinkFact("link.refusal", map[
          "acte_parent" := acteParent, "order_id" := order.identifier, "reason" := refusal.reason])];
        var traces := [LinkTrace(acteParent, "refusal", timestamp)];
        var entry := LedgerEntry(acteParent, timestamp, facts, [], Decision("link.refusal", facts), traces, Some(refusal));
        WiringResult(refusal, None, entry)
      else
        var applyResult := apply(order);
        var errors := ExtractErrors(applyResult.traces);
        var outcome := applyResult.outcome.Value();
        if applyResult.outcome == APPLIED then
          var expression := OrderExpression(applyResult.order);
          var facts := applyResult.facts + [LinkFact("link.applied", map[
            "acte_parent" := acteParent, "order_id" := order.identifier, "outcome" := outcome])];
          var traces := applyResult.traces + [LinkTrace(acteParent, "result", timestamp,
            map["order_id" := order.identifier, "outcome" := outcome])];
          var entry := LedgerEntry(acteParent, timestamp, facts, [], Decision("link.applied", facts), traces, Some(expression));
          WiringResult(expression, Some(applyResult), entry)
        else
          var details := map["order_id" := order.identifier, "outcome" := outcome, "errors" := OrElseEmpty(errors)];
          var refusal := EmitRefusal(RefusalReason(applyResult.outcome, errors), emittedAt, Some(details), acteParent);
          var facts := applyResult.facts + [LinkFact("link.refusal", details["acte_parent" := acteParent])];
          var traces := applyResult.traces + [LinkTrace(acteParent, "refusal", timestamp, details)];
          var entry := LedgerEntry(acteParent, timestamp, facts, [], Decision("link.refusal", facts), traces, Some(refusal));
          WiringResult(refusal, Some(applyResult), entry)
  }

  /** Without an order the step is silent for the reason "no_order", calls nothing and leaves one
      link trace. */
  lemma WireNoOrder(apply: Order -> DeployResult, timestamp: Time, emittedAt: Time, acteParent: string)
    ensures var r := WireStep(None, apply, timestamp, emittedAt, acteParent);
      r.expression.Silence? && r.expression.reason == "no_order" && r.applyResult.None? &&
      |r.ledgerEntry.traces| == 1 && r.ledgerEntry.traces[0].actor == "link" &&
      r.ledgerEntry.traces[0].metadata["event"] == "silence"
  {
  }

  /** A consumed order is refused as already consumed, without calling the deployer. */
  lemma WireConsumedOrder(order: Order, apply: Order -> DeployResult, timestamp: Time, emittedAt: Time, acteParent: string)
    requires order.consumedAt.Some?
    ensures var r := WireStep(Some(order), apply, timestamp, emittedAt, acteParent);
      r.expression.Refusal? && r.expression.reason == "order_already_consumed" &&
      r.expression.acteParent == order.acteParent && r.applyResult.None?
  {
  }

  /** An APPLIED outcome makes the step's expression exactly the order the deployer returned, and the
      entry holds the deployer's facts and traces plus one link fact and one link trace. */
  lemma WireApplied(order: Order, apply: Order -> DeployResult, timestamp: Time, emittedAt: Time, acteParent: string)
    requires order.consumedAt.None? && apply(order).outcome == APPLIED
    ensures var r := WireStep(Some(order), apply, timestamp, emittedAt, acteParent);
      r.expression == OrderExpression(apply(order).order) &&
      |r.ledgerEntry.facts| == |apply(order).facts| + 1 && r.ledgerEntry.facts[..|apply(order).facts|] == apply(order).facts &&
      |r.ledgerEntry.traces| == |apply(order).traces| + 1 && r.ledgerEntry.traces[..|apply(order).traces|] == apply(order).traces &&
      r.ledgerEntry.facts[|apply(order).facts|].description == "link.applied" &&
      r.ledgerEntry.traces[|apply(order).traces|].actor == "link"
  {
  }

  /** Any other outcome is refused with "deployer_" and the lower-cased outcome, followed by ":" and
      the first errors text of the deployer's traces when there is one. */
  lemma WireNotApplied(order: Order, apply: Order -> DeployResult, timestamp: Time, emittedAt: Time, acteParent: string)
    requires order.consumedAt.None? && apply(order).outcome != APPLIED
    ensures var r := WireStep(Some(order), apply, timestamp, emittedAt, acteParent);
      var errors := ExtractErrors(apply(order).traces);
      r.expression.Refusal? &&
      r.expression.reason == "deployer_" + Lower(apply(order).outcome.Value()) + (if errors.Some? then ":" + errors.value else "") &&
      |r.ledgerEntry.facts| == |apply(order).facts| + 1 && r.ledgerEntry.facts[..|apply(order).facts|] == apply(order).facts &&
      |r.ledgerEntry.traces| == |apply(order).traces| + 1 && r.ledgerEntry.traces[..|apply(order).traces|] == apply(order).traces
  {
  }

  /** A rejection by the dry-run deployer leaves its joined contract error codes as the first errors
      text of its traces. */
  lemma {:induction false} RejectionErrorsExtracted(config: DeployerConfig, order: Order, appliedAt: Time)
    requires order.consumedAt.None? && !Conforms(order)
    ensures ExtractErrors(Apply(config, order, appliedAt).traces) == Some(Join(Codes(ContractErrors(order)), ","))
  {
    var result := Apply(config, order, appliedAt);
    ContractErrorsEmptyIffConforms(order);
    var codes := Codes(ContractErrors(order));
    assert codes[0] != "" by {
      match ContractErrors(order)[0]
      case _ =>
    }
    JoinNonEmpty(codes, ",");
    assert TraceErrors(result.traces[0]) == Join(codes, ",");
  }

  /** Wired to the dry-run deployer (any `apply` answering for the order as Apply does), an
      unconsumed order that conforms to the contract becomes that order, consumed at the apply time. */
  lemma {:induction false} WireConformingOrder(
    config: DeployerConfig, apply: Order -> DeployResult, order: Order, appliedAt: Time, timestamp: Time, emittedAt: Time)
    requires order.consumedAt.None? && Conforms(order) && apply(order) == Apply(config, order, appliedAt)
    ensures WireStep(Some(order), apply, timestamp, emittedAt).expression ==
      OrderExpression(order.(consumedAt := Some(appliedAt)))
  {
    WireApplied(order, apply, timestamp, emittedAt, ACTE_IV);
  }

  /** Wired the same way, an unconsumed order that does not conform becomes a Refusal naming the
      rejection and its contract error codes. */
  lemma {:induction false} WireNonConformingOrder(
    config: DeployerConfig, apply: Order -> DeployResult, order: Order, appliedAt: Time, timestamp: Time, emittedAt: Time)
    requires order.consumedAt.None? && !Conforms(order) && apply(order) == Apply(config, order, appliedAt)
    ensures var r := WireStep(Some(order), apply, timestamp, emittedAt);
      r.expression.Refusal? &&
      r.expression.reason == "deployer_rejected:" + Join(Codes(ContractErrors(order)), ",")
  {
    var errors := Join(Codes(ContractErrors(order)), ",");
    RejectionErrorsExtracted(config, order, appliedAt);
    RejectionReason(errors);
    assert WireStep(Some(order), apply, timestamp, emittedAt).expression.reason ==
      RefusalReason(REJECTED, Some(errors));
  }

  /** The reason of a rejection that carries errors. */
  lemma RejectionReason(errors: string)
    ensures RefusalReason(REJECTED, Some(errors)) == "deployer_rejected:" + errors
  {
    assert Lower("REJECTED") == "rejected";
    assert "deployer_" + "rejected" + ":" == "deployer_rejected:";
  }
}
