/** The file-based deployer loop: the execution records it builds from an application, a failure or
    a rejection, and one polling tick that moves the oldest order file out of the inbox. */
module DeployerMain {
  import opened Values
  import opened Json
  import opened Deployer
  import opened OrderParsing
  import Execution
  import Serialization

  // ------------------------------------------------------------------
  // Result builders
  // ------------------------------------------------------------------

  /** The executor status and deploy state recorded for an application outcome. */
  function MapDeployerOutcome(outcome: DeployOutcome): (r: (Execution.ExecutionStatus, DeployState))
    ensures r.1.Value() == outcome.Value()
    ensures outcome != REJECTED ==> r.1 == Execution.MapExecutionStatus(r.0) && r.0.Value() == outcome.Value()
    ensures outcome == REJECTED ==> r.0 == Execution.ExecutionStatus.UNKNOWN
  {
    match outcome
    case APPLIED => (Execution.ExecutionStatus.APPLIED, DEPLOY_APPLIED)
    case FAILED => (Execution.ExecutionStatus.FAILED, DEPLOY_FAILED)
    case REJECTED => (Execution.ExecutionStatus.UNKNOWN, DEPLOY_REJECTED)
    case UNKNOWN => (Execution.ExecutionStatus.UNKNOWN, DEPLOY_UNKNOWN)
  }

  /** The fact marking a defaulted creation time, when it was defaulted. */
  function DefaultedFacts(orderId: string, defaulted: bool): (facts: seq<Fact>)
    ensures |facts| == if defaulted then 1 else 0
    ensures defaulted ==> facts[0].description == "order.created_at.defaulted"
  {
    if defaulted then [Fact("order.created_at.defaulted", map["order_id" := orderId, "defaulted" := "true"])] else []
  }

  /** The trace marking a defaulted creation time, when it was defaulted. */
  function DefaultedTraces(orderId: string, defaulted: bool, finishedAt: Time): (traces: seq<Trace>)
    ensures |traces| == if defaulted then 1 else 0
    ensures defaulted ==> traces[0].actor == "deployer" && "order.created_at.defaulted" in traces[0].metadata
  {
    if defaulted then [Trace(finishedAt, "deployer", map["order_id" := orderId, "order.created_at.defaulted" := "true"])] else []
  }

  /** The order with its consumption time set to `finishedAt` unless it already had one. */
  function ConsumeAt(order: Order, finishedAt: Time): (r: Order)
    ensures order.consumedAt.Some? ==> r == order
    ensures order.consumedAt.None? ==> r == order.(consumedAt := Some(finishedAt))
  {
    if order.consumedAt.None? then order.(consumedAt := Some(finishedAt)) else order
  }

  /** The record of an application: its facts and traces, then the defaulted marks. */
  function BuildExecutionResult(result: DeployResult, startedAt: Time, finishedAt: Time, defaulted: bool): (r: Execution.ExecutionResult)
    ensures (r.status, r.deployState) == MapDeployerOutcome(result.outcome)
    ensures r.order == result.order
    ensures r.facts == result.facts + DefaultedFacts(result.order.identifier, defaulted)
    ensures r.traces == result.traces + DefaultedTraces(result.order.identifier, defaulted, finishedAt)
    ensures r.rawResult == Some("Order " + result.outcome.Value()) && r.rawError.None?
    ensures r.startedAt == startedAt && r.finishedAt == finishedAt
  {
    var (status, state) := MapDeployerOutcome(result.outcome);
    Execution.ExecutionResult(status, state, result.order,
      result.facts + DefaultedFacts(result.order.identifier, defaulted),
      result.traces + DefaultedTraces(result.order.identifier, defaulted, finishedAt),
      Some("Order " + result.outcome.Value()), None, startedAt, finishedAt)
  }

  /** The record of an application that raised `error`: FAILED, the order consumed at the finish time
      unless it already was. */
  function BuildFailureResult(order: Order, error: string, startedAt: Time, finishedAt: Time, defaulted: bool): (r: Execution.ExecutionResult)
    ensures r.order == ConsumeAt(order, finishedAt)
    ensures r.status == Execution.ExecutionStatus.FAILED && r.deployState == DEPLOY_FAILED
    ensures |r.facts| >= 1 && r.facts[0] == Fact("deployer.execution.status", map[
      "order_id" := r.order.identifier, "status" := "FAILED", "deploy_state" := "FAILED"])
    ensures r.facts[1..] == DefaultedFacts(r.order.identifier, defaulted)
    ensures |r.traces| >= 1 && r.traces[0] == Trace(finishedAt, "deployer", map[
      "event" := "apply_failed", "order_id" := r.order.identifier, "scope" := r.order.scope, "error" := error])
    ensures r.traces[1..] == DefaultedTraces(r.order.identifier, defaulted, finishedAt)
    ensures r.rawResult.None? && r.rawError == Some(error)
    ensures r.startedAt == startedAt && r.finishedAt == finishedAt
  {
    var order := ConsumeAt(order, finishedAt);
    var traces := [Trace(finishedAt, "deployer", map[
      "event" := "apply_failed", "order_id" := order.identifier, "scope" := order.scope, "error" := error])];
    var facts := [Fact("deployer.execution.status", map[
      "order_id" := order.identifier,
      "status" := Execution.ExecutionStatus.FAILED.Value(),
      "deploy_state" := DEPLOY_FAILED.Value()])];
    Execution.ExecutionResult(Execution.ExecutionStatus.FAILED, DEPLOY_FAILED, order,
      facts + DefaultedFacts(order.identifier, defaulted),
      traces + DefaultedTraces(order.identifier, defaulted, finishedAt),
      None, Some(error), startedAt, finishedAt)
  }

  /** The record of a rejected order file: deploy state REJECTED with status UNKNOWN, the order
      consumed at the finish time unless it already was, and the joined error codes. */
  function BuildRejectionResult(order: Order, errors: seq<string>, startedAt: Time, finishedAt: Time, defaulted: bool): (r: Execution.ExecutionResult)
    ensures r.order == ConsumeAt(order, finishedAt)
    ensures r.status == Execution.ExecutionStatus.UNKNOWN && r.deployState == DEPLOY_REJECTED
    ensures |r.facts| >= 1 && r.facts[0] == Fact("order.validation.failed", map["order_id" := r.order.identifier, "errors" := Join(errors, ",")])
    ensures r.facts[1..] == DefaultedFacts(r.order.identifier, defaulted)
    ensures |r.traces| >= 1 && r.traces[0] == Trace(finishedAt, "deployer", map[
      "event" := "validation_failed", "order_id" := r.order.identifier, "errors" := Join(errors, ",")])
    ensures r.traces[1..] == DefaultedTraces(r.order.identifier, defaulted, finishedAt)
    ensures r.rawResult == Some("Order REJECTED") && r.rawError == Some("validation_failed")
    ensures r.startedAt == startedAt && r.finishedAt == finishedAt
  {
    var order := ConsumeAt(order, finishedAt);
    var facts := [Fact("order.validation.failed", map["order_id" := order.identifier, "errors" := Join(errors, ",")])];
    var traces := [Trace(finishedAt, "deployer", map[
      "event" := "validation_failed", "order_id" := order.identifier, "errors" := Join(errors, ",")])];
    Execution.ExecutionResult(Execution.ExecutionStatus.UNKNOWN, DEPLOY_REJECTED, order,
      facts + DefaultedFacts(order.identifier, defaulted),
      traces + DefaultedTraces(order.identifier, defaulted, finishedAt),
      Some("Order REJECTED"), Some("validation_failed"), startedAt, finishedAt)
  }

  /** A defaulted creation time adds exactly one fact and one trace at the end of each record and
      changes nothing else. */
  lemma {:induction false} DefaultedAddsOneMark(result: DeployResult, order: Order, error: string, errors: seq<string>, startedAt: Time, finishedAt: Time)
    ensures var a := BuildExecutionResult(result, startedAt, finishedAt, false);
      var b := BuildExecutionResult(result, startedAt, finishedAt, true);
      |b.facts| == |a.facts| + 1 && b.facts[..|a.facts|] == a.facts &&
      |b.traces| == |a.traces| + 1 && b.traces[..|a.traces|] == a.traces &&
      b.facts[|a.facts|].description == "order.created_at.defaulted" &&
      b == a.(facts := b.facts, traces := b.traces)
    ensures var a := BuildFailureResult(order, error, startedAt, finishedAt, false);
      var b := BuildFailureResult(order, error, startedAt, finishedAt, true);
      |a.facts| == 1 && |b.facts| == 2 && b.facts[0] == a.facts[0] &&
      |a.traces| == 1 && |b.traces| == 2 && b.traces[0] == a.traces[0] &&
      b == a.(facts := b.facts, traces := b.traces)
    ensures var a := BuildRejectionResult(order, errors, startedAt, finishedAt, false);
      var b := BuildRejectionResult(order, errors, startedAt, finishedAt, true);
      |a.facts| == 1 && |b.facts| == 2 && b.facts[0] == a.facts[0] &&
      |a.traces| == 1 && |b.traces| == 2 && b.traces[0] == a.traces[0] &&
      b == a.(facts := b.facts, traces := b.traces)
  {
    var a := BuildExecutionResult(result, startedAt, finishedAt, false);
    var b := BuildExecutionResult(result, startedAt, finishedAt, true);
    assert a.facts == result.facts && a.traces == result.traces;
  }

  /** The reason file written next to a rejected order: its error codes and the defaulted flag. */
  function ReasonPayload(errors: seq<string>, defaulted: bool): (j: Json)
    ensures j.JObj? && j.fields.Keys == {"errors", "order.created_at.defaulted"}
    ensures j.fields["errors"].JArr? && |j.fields["errors"].items| == |errors|
    ensures forall i :: 0 <= i < |errors| ==> j.fields["errors"].items[i] == JStr(errors[i])
    ensures j.fields["order.created_at.defaulted"] == JBool(defaulted)
  {
    JObj(map[
      "errors" := JArr(seq(|errors|, i requires 0 <= i < |errors| => JStr(errors[i]))),
      "order.created_at.defaulted" := JBool(defaulted)])
  }

  // ------------------------------------------------------------------
  // Order files
  // ------------------------------------------------------------------

  /** A file of the inbox: its name, its modification time, and what reading and decoding it gives. */
  datatype OrderFile = OrderFile(name: string, mtime: int, load: Load)

  /** The names the `*.json` pattern matches. */
  predicate IsOrderName(name: string) {
    |name| >= 5 && name[|name| - 5..] == ".json"
  }

  /** `Path(name).stem` for a name ending in ".json": the name without that suffix, except for the
      name ".json" itself, which has no suffix. */
  function Stem(name: string): (stem: string)
    requires IsOrderName(name)
    ensures |name| > 5 ==> stem + ".json" == name
    ensures |name| == 5 ==> stem == name
  {
    if |name| > 5 then name[..|name| - 5] else name
  }

  function ReasonName(name: string): string
    requires IsOrderName(name)
  {
    Stem(name) + ".reason.json"
  }

  predicate HasOrderFile(inbox: seq<OrderFile>) {
    exists i :: 0 <= i < |inbox| && IsOrderName(inbox[i].name)
  }

  /** Position `i` holds the order file the stable sort by modification time puts first: no order
      file is older, and none before it is as old. */
  predicate IsOldest(inbox: seq<OrderFile>, i: int) {
    0 <= i < |inbox| && IsOrderName(inbox[i].name) &&
    (forall j :: 0 <= j < |inbox| && IsOrderName(inbox[j].name) ==> inbox[i].mtime <= inbox[j].mtime) &&
    (forall j :: 0 <= j < i && IsOrderName(inbox[j].name) ==> inbox[i].mtime < inbox[j].mtime)
  }

  /** At most one position is the oldest. */
  lemma OldestIsUnique(inbox: seq<OrderFile>, i: int, j: int)
    requires IsOldest(inbox, i) && IsOldest(inbox, j)
    ensures i == j
  {
  }

  /** The head of `sorted(glob("*.json"), key=getmtime)`, or None when no file matches. */
  method Oldest(inbox: seq<OrderFile>) returns (index: Option<nat>)
    ensures index.None? <==> !HasOrderFile(inbox)
    ensures index.Some? ==> IsOldest(inbox, index.value)
  {
    index := None;
    var k := 0;
    while k < |inbox|
      invariant 0 <= k <= |inbox|
      invariant index.None? ==> forall j :: 0 <= j < k ==> !IsOrderName(inbox[j].name)
      invariant index.Some? ==> index.value < k && IsOrderName(inbox[index.value].name)
      invariant index.Some? ==> forall j :: 0 <= j < k && IsOrderName(inbox[j].name) ==> inbox[index.value].mtime <= inbox[j].mtime
      invariant index.Some? ==> forall j :: 0 <= j < index.value && IsOrderName(inbox[j].name) ==> inbox[index.value].mtime < inbox[j].mtime
    {
      if IsOrderName(inbox[k].name) && (index.None? || inbox[k].mtime < inbox[index.value].mtime) {
        index := Some(k);
      }
      k := k + 1;
    }
  }

  // ------------------------------------------------------------------
  // One tick
  // ------------------------------------------------------------------

  datatype Destination = Consumed | Rejected

  /** The content written to the last-result file for a record. */
  function LastRecord(result: Execution.ExecutionResult): Json {
    Serialization.SerializeDeployerLast(result)
  }

  /** What handling one order file decides: where it goes, the record written as the last result,
      and the reason file written beside a rejected file, if any. */
  datatype Handling = Handling(destination: Destination, result: Execution.ExecutionResult, reason: Option<Json>)

  /** `metadata.action` of a decoded order file, as `validate_order_contract` reads it from the
      order's metadata: JNull when the content is not an object, its metadata is not an object, or
      the action is absent. */
  function RawAction(content: Option<Json>): (action: Json)
    ensures action != JNull ==>
      content.Some? && content.value.JObj? && "metadata" in content.value.fields &&
      content.value.fields["metadata"].JObj? && action == Get(content.value.fields["metadata"].fields, "action")
  {
    if content.Some? && content.value.JObj? then
      var metadata := Get(content.value.fields, "metadata");
      if metadata.JObj? then Get(metadata.fields, "action") else JNull
    else JNull
  }

  /** The message of the TypeError `action not in {...}` raises, in the wording of Python 3.12, for
      an action no set can hold: a non-empty list or object. An empty one is falsy and is reported
      missing before the test. */
  function UnhashableAction(action: Json): (message: Option<string>)
    ensures message.Some? <==> Truthy(action) && (action.JArr? || action.JObj?)
  {
    match action
    case JArr(items) => if items != [] then Some("unhashable type: 'list'") else None
    case JObj(fields) => if fields != map[] then Some("unhashable type: 'dict'") else None
    case _ => None
  }

  /** The order that stands in when no order could be read. */
  function UnknownOrder(startedAt: Time, finishedAt: Time): Order {
    Order("unknown", "unknown", startedAt, ACTE_IV, Some(finishedAt), map[])
  }

  /** Handling one file. `startedAt` is the clock read before parsing (and the parser's `now`),
      `appliedAt` the deployer's own clock read, `finishedAt` the one after; `fault` is the message
      of an exception raised while applying, if one was. Applying an unconsumed order whose action
      is a list or an object raises the TypeError of UnhashableAction. */
  function Handle(config: DeployerConfig, file: OrderFile, startedAt: Time, appliedAt: Time, finishedAt: Time,
                  fault: Option<string>): Handling
  {
    var parsed := ParsedOrder(Content(file.load), startedAt);
    if parsed.errors != [] then
      var order := if parsed.order.Some? then parsed.order.value else UnknownOrder(startedAt, finishedAt);
      var codes := OrderParsing.Codes(parsed.errors);
      Handling(Rejected, BuildRejectionResult(order, codes, startedAt, finishedAt, parsed.defaultedCreatedAt),
               Some(ReasonPayload(codes, parsed.defaultedCreatedAt)))
    else if parsed.order.None? then
      Handling(Rejected, BuildRejectionResult(UnknownOrder(startedAt, finishedAt), ["invalid_payload"], startedAt, finishedAt, false),
               Some(ReasonPayload(["invalid_payload"], false)))
    else if fault.Some? then
      Handling(Rejected, BuildFailureResult(parsed.order.value, fault.value, startedAt, finishedAt, parsed.defaultedCreatedAt), None)
    else if parsed.order.value.consumedAt.None? && UnhashableAction(RawAction(Content(file.load))).Some? then
      var error := UnhashableAction(RawAction(Content(file.load))).value;
      Handling(Rejected, BuildFailureResult(parsed.order.value, error, startedAt, finishedAt, parsed.defaultedCreatedAt), None)
    else
      var result := Apply(config, parsed.order.value, appliedAt);
      Handling(if result.outcome == APPLIED then Consumed else Rejected,
               BuildExecutionResult(result, startedAt, finishedAt, parsed.defaultedCreatedAt), None)
  }

  /** The content of a file the deployer accepts: it parses without error into an unconsumed order
      that meets the order contract. */
  predicate Accepted(content: Option<Json>) {
    var parsed := ParsedOrder(content, 0);
    parsed.errors == [] && parsed.order.Some? && parsed.order.value.consumedAt.None? && Conforms(parsed.order.value)
  }

  /** A file goes to consumed exactly when its content is accepted and applying it raised nothing;
      the last result then says APPLIED, and says so for no other file. */
  lemma {:induction false} ConsumedExactlyWhenAccepted(config: DeployerConfig, file: OrderFile, startedAt: Time, appliedAt: Time,
                                                      finishedAt: Time, fault: Option<string>)
    ensures var h := Handle(config, file, startedAt, appliedAt, finishedAt, fault);
      (h.destination == Consumed <==> fault.None? && Accepted(Content(file.load))) &&
      (h.destination == Consumed <==> h.result.deployState == DEPLOY_APPLIED)
  {
    ConsumedExactlyWhenRecordedApplied(config, file, startedAt, appliedAt, finishedAt, fault);
    var content := Content(file.load);
    NoOrderOnlyWithErrors(content, startedAt);
    ClockOnlyFillsCreatedAt(content, startedAt, 0);
    var parsed := ParsedOrder(content, startedAt);
    var h := Handle(config, file, startedAt, appliedAt, finishedAt, fault);
    if parsed.errors == [] && fault.None? {
      var order := parsed.order.value;
      var zero := ParsedOrder(content, 0).order.value;
      assert order.(createdAt := 0) == zero.(createdAt := 0);
      assert Conforms(order) == Conforms(zero) by {
        assert order.scope == zero.scope && order.identifier == zero.identifier && order.metadata == zero.metadata;
      }
      if order.consumedAt.None? && UnhashableAction(RawAction(content)).Some? {
        UnhashableActionIsNotAllowed(content, startedAt);
        assert h.destination == Rejected;
      } else {
        AppliedExactlyWhenConforming(config, order, appliedAt);
      }
    }
  }

  /** The record of a handled file says APPLIED exactly when the file goes to consumed. */
  lemma ConsumedExactlyWhenRecordedApplied(config: DeployerConfig, file: OrderFile, startedAt: Time, appliedAt: Time,
                                           finishedAt: Time, fault: Option<string>)
    ensures var h := Handle(config, file, startedAt, appliedAt, finishedAt, fault);
      h.destination == Consumed <==> h.result.deployState == DEPLOY_APPLIED
  {
    var parsed := ParsedOrder(Content(file.load), startedAt);
    if parsed.errors == [] && parsed.order.Some? && fault.None? {
      AppliedExactlyWhenConforming(config, parsed.order.value, appliedAt);
    }
  }

  /** The deploy state recorded for an application is APPLIED exactly for an unconsumed conforming
      order. */
  lemma AppliedExactlyWhenConforming(config: DeployerConfig, order: Order, appliedAt: Time)
    ensures var outcome := Apply(config, order, appliedAt).outcome;
      (outcome == APPLIED <==> order.consumedAt.None? && Conforms(order)) &&
      (MapDeployerOutcome(outcome).1 == DEPLOY_APPLIED <==> outcome == APPLIED)
  {
  }

  /** A list or object action is read as text that is no allowed action, so an order naming one
      does not conform. */
  lemma UnhashableActionIsNotAllowed(content: Option<Json>, now: Time)
    requires UnhashableAction(RawAction(content)).Some?
    ensures var parsed := ParsedOrder(content, now);
      parsed.order.Some? && !Conforms(parsed.order.value)
  {
    var metadata := content.value.fields["metadata"];
    var order := ParsedOrder(content, now).order.value;
    assert order.metadata == TextAttrs(metadata.fields);
    assert Action(order) == NON_STRING;
  }

  /** An order that parses cleanly and is unconsumed but names a list or an object as its action
      makes `apply` raise: the file goes to rejected without a reason file, and the last result is
      FAILED with the TypeError's message. */
  lemma {:induction false} UnhashableActionFails(config: DeployerConfig, file: OrderFile, startedAt: Time, appliedAt: Time,
                                                finishedAt: Time)
    requires var parsed := ParsedOrder(Content(file.load), startedAt);
      parsed.errors == [] && parsed.order.Some? && parsed.order.value.consumedAt.None?
    requires UnhashableAction(RawAction(Content(file.load))).Some?
    ensures var h := Handle(config, file, startedAt, appliedAt, finishedAt, None);
      var message := UnhashableAction(RawAction(Content(file.load))).value;
      h.destination == Rejected && h.reason.None? &&
      h.result.status == Execution.ExecutionStatus.FAILED && h.result.deployState == DEPLOY_FAILED &&
      h.result.rawError == Some(message) && h.result.traces[0].metadata["error"] == message &&
      (message == "unhashable type: 'list'" <==> RawAction(Content(file.load)).JArr?)
  {
  }

  /** A file that cannot be decoded, as a parse that catches every read error handles it: rejected
      as invalid JSON, with a reason file, in place of an unknown order. */
  lemma {:induction false} UndecodableFileIsRejected(config: DeployerConfig, file: OrderFile, startedAt: Time, appliedAt: Time,
                                                    finishedAt: Time, fault: Option<string>)
    requires file.load.Undecodable?
    ensures var h := Handle(config, file, startedAt, appliedAt, finishedAt, fault);
      h.destination == Rejected &&
      h.result == BuildRejectionResult(UnknownOrder(startedAt, finishedAt), ["invalid_json"], startedAt, finishedAt, false) &&
      h.reason == Some(ReasonPayload(["invalid_json"], false))
  {
    assert OrderParsing.Codes([InvalidJson]) == ["invalid_json"];
  }

  /** As written, one file that is not UTF-8 stops the loop for good: it is the oldest of the inbox,
      reading it raises, and a pass that raises leaves it where it is (OrderQueue.TickAsWritten). */
  lemma UndecodableFileStopsTheLoop(now: Time)
    ensures var inbox := [OrderFile("order.json", 0, Undecodable)];
      IsOldest(inbox, 0) && ParseAsWritten(inbox[0].load, now).None?
  {
  }

  /** A reason file is written exactly on the parse-error path, and it lists the parse errors. */
  lemma {:induction false} ReasonOnlyForParseErrors(config: DeployerConfig, file: OrderFile, startedAt: Time, appliedAt: Time,
                                                   finishedAt: Time, fault: Option<string>)
    ensures var h := Handle(config, file, startedAt, appliedAt, finishedAt, fault);
      var parsed := ParsedOrder(Content(file.load), startedAt);
      (h.reason.Some? <==> parsed.errors != []) &&
      (h.reason.Some? ==> h.destination == Rejected && h.reason.value == ReasonPayload(OrderParsing.Codes(parsed.errors), parsed.defaultedCreatedAt))
  {
    NoOrderOnlyWithErrors(Content(file.load), startedAt);
  }

  /** No two files share a name, as in one directory. */
  predicate DistinctNames(files: seq<OrderFile>) {
    forall i, j :: 0 <= i < j < |files| ==> files[i].name != files[j].name
  }

  /** Taking one file out of a directory keeps the names distinct. */
  lemma RemovalKeepsNamesDistinct(files: seq<OrderFile>, k: nat)
    requires DistinctNames(files) && k < |files|
    ensures DistinctNames(files[..k] + files[k + 1..])
  {
    var rest := files[..k] + files[k + 1..];
    forall i, j | 0 <= i < j < |rest|
      ensures rest[i].name != rest[j].name
    {
      var i' := if i < k then i else i + 1;
      var j' := if j < k then j else j + 1;
      assert rest[i] == files[i'] && rest[j] == files[j'];
    }
  }

  /** Every file of a directory is filed under its own name. */
  predicate FiledByName(directory: map<string, OrderFile>) {
    forall name :: name in directory ==> directory[name].name == name
  }

  predicate AllAccepted(directory: map<string, OrderFile>) {
    forall name :: name in directory ==> Accepted(Content(directory[name].load))
  }

  /** Moving a file in under its own name keeps the directory filed by name, and accepted when the
      file is. */
  lemma FilingKeepsDirectory(directory: map<string, OrderFile>, file: OrderFile)
    requires FiledByName(directory)
    ensures FiledByName(directory[file.name := file])
    ensures AllAccepted(directory) && Accepted(Content(file.load)) ==> AllAccepted(directory[file.name := file])
  {
  }

  /** The inbox and the two target directories, as the deployer loop sees them. */
  class OrderQueue {
    const config: DeployerConfig
    var inbox: seq<OrderFile>
    var consumed: map<string, OrderFile>
    var rejected: map<string, OrderFile>
    /** The reason files in the rejected directory, by file name. */
    var reasonFiles: map<string, Json>
    /** The content of the last-result file, once written. */
    var lastResult: Option<Json>

    /** Inbox names are distinct, every file is filed under its own name, and every consumed file
        holds an accepted order. */
    predicate Valid()
      reads this
    {
      DistinctNames(inbox) && FiledByName(consumed) && AllAccepted(consumed) && FiledByName(rejected)
    }

    constructor(config: DeployerConfig, inbox: seq<OrderFile>)
      requires DistinctNames(inbox)
      ensures Valid()
      ensures this.config == config && this.inbox == inbox
      ensures consumed == map[] && rejected == map[] && reasonFiles == map[] && lastResult.None?
    {
      this.config := config;
      this.inbox := inbox;
      consumed := map[];
      rejected := map[];
      reasonFiles := map[];
      lastResult := None;
    }

    /** Moves the file at `k` out of the inbox into the given directory, under its own name. */
    method Rename(k: nat, destination: Destination)
      requires k < |inbox|
      modifies this
      ensures inbox == old(inbox[..k] + inbox[k + 1..])
      ensures destination == Consumed ==> consumed == old(consumed)[old(inbox[k]).name := old(inbox[k])] && rejected == old(rejected)
      ensures destination == Rejected ==> rejected == old(rejected)[old(inbox[k]).name := old(inbox[k])] && consumed == old(consumed)
      ensures reasonFiles == old(reasonFiles) && lastResult == old(lastResult)
    {
      var file := inbox[k];
      inbox := inbox[..k] + inbox[k + 1..];
      if destination == Consumed {
        consumed := consumed[file.name := file];
      } else {
        rejected := rejected[file.name := file];
      }
    }

    /** One pass of the loop. With no order file nothing changes; otherwise the oldest one leaves the
        inbox for consumed or rejected as Handle decides, the last result is overwritten with its
        record, and the reason file is written when Handle gives one. Returns the position of the
        handled file in the inbox. */
    method Tick(startedAt: Time, appliedAt: Time, finishedAt: Time, fault: Option<string>) returns (picked: Option<nat>)
      requires Valid()
      modifies this
      ensures Valid()
      ensures picked.None? <==> !HasOrderFile(old(inbox))
      ensures picked.None? ==>
        inbox == old(inbox) && consumed == old(consumed) && rejected == old(rejected) &&
        reasonFiles == old(reasonFiles) && lastResult == old(lastResult)
      ensures picked.Some? ==> IsOldest(old(inbox), picked.value)
      ensures picked.Some? ==>
        var k := picked.value;
        var file := old(inbox)[k];
        var h := Handle(config, file, startedAt, appliedAt, finishedAt, fault);
        inbox == old(inbox)[..k] + old(inbox)[k + 1..] &&
        (h.destination == Consumed ==> consumed == old(consumed)[file.name := file] && rejected == old(rejected)) &&
        (h.destination == Rejected ==> rejected == old(rejected)[file.name := file] && consumed == old(consumed)) &&
        reasonFiles == (if h.reason.Some? then old(reasonFiles)[ReasonName(file.name) := h.reason.value] else old(reasonFiles)) &&
        lastResult == Some(LastRecord(h.result))
      ensures picked.Some? && old(inbox)[picked.value].name !in old(consumed) && old(inbox)[picked.value].name !in old(rejected) ==>
        |inbox| == |old(inbox)| - 1 &&
        |consumed.Keys| + |rejected.Keys| == |old(consumed).Keys| + |old(rejected).Keys| + 1 &&
        ((old(inbox)[picked.value].name in consumed) != (old(inbox)[picked.value].name in rejected))
    {
      picked := Oldest(inbox);
      if picked.None? {
        return;
      }
      var k := picked.value;
      var file := inbox[k];
      var handling := HandleFile(config, file, startedAt, appliedAt, finishedAt, fault);
      ConsumedExactlyWhenAccepted(config, file, startedAt, appliedAt, finishedAt, fault);
      if file.name !in consumed && file.name !in rejected {
        TickMovesOneFile(inbox, k, consumed, rejected, handling);
      }
      File(k, handling);
    }

    /** One pass of the loop as written: `_parse_order` runs before the loop's `try`, so reading an
        Undecodable oldest file (one whose read error is neither a JSONDecodeError nor an OSError)
        raises out of the loop; `raised` reports that. Nothing has changed then and the file is
        still the oldest of the inbox, so the restarted loop raises on it again. Any other oldest
        file is handled as in Tick. */
    method TickAsWritten(startedAt: Time, appliedAt: Time, finishedAt: Time, fault: Option<string>)
      returns (picked: Option<nat>, raised: bool)
      requires Valid()
      modifies this
      ensures Valid()
      ensures picked.None? <==> !HasOrderFile(old(inbox))
      ensures picked.Some? ==> IsOldest(old(inbox), picked.value)
      ensures raised <==> picked.Some? && old(inbox)[picked.value].load.Undecodable?
      ensures picked.None? || raised ==>
        inbox == old(inbox) && consumed == old(consumed) && rejected == old(rejected) &&
        reasonFiles == old(reasonFiles) && lastResult == old(lastResult)
      ensures picked.Some? && !raised ==>
        var k := picked.value;
        var file := old(inbox)[k];
        var h := Handle(config, file, startedAt, appliedAt, finishedAt, fault);
        inbox == old(inbox)[..k] + old(inbox)[k + 1..] &&
        (h.destination == Consumed ==> consumed == old(consumed)[file.name := file] && rejected == old(rejected)) &&
        (h.destination == Rejected ==> rejected == old(rejected)[file.name := file] && consumed == old(consumed)) &&
        reasonFiles == (if h.reason.Some? then old(reasonFiles)[ReasonName(file.name) := h.reason.value] else old(reasonFiles)) &&
        lastResult == Some(LastRecord(h.result))
    {
      picked := Oldest(inbox);
      raised := picked.Some? && inbox[picked.value].load.Undecodable?;
      if picked.None? || raised {
        return;
      }
      var k := picked.value;
      var file := inbox[k];
      var handling := HandleFile(config, file, startedAt, appliedAt, finishedAt, fault);
      ConsumedExactlyWhenAccepted(config, file, startedAt, appliedAt, finishedAt, fault);
      File(k, handling);
    }

    /** Files the inbox file at `k` as `handling` says: the last result, the move, the reason file. */
    method File(k: nat, handling: Handling)
      requires Valid()
      requires k < |inbox| && IsOrderName(inbox[k].name)
      requires handling.destination == Consumed ==> Accepted(Content(inbox[k].load))
      modifies this
      ensures Valid()
      ensures
        var file := old(inbox)[k];
        inbox == old(inbox)[..k] + old(inbox)[k + 1..] &&
        (handling.destination == Consumed ==> consumed == old(consumed)[file.name := file] && rejected == old(rejected)) &&
        (handling.destination == Rejected ==> rejected == old(rejected)[file.name := file] && consumed == old(consumed)) &&
        reasonFiles == (if handling.reason.Some? then old(reasonFiles)[ReasonName(file.name) := handling.reason.value] else old(reasonFiles)) &&
        lastResult == Some(LastRecord(handling.result))
    {
      var file := inbox[k];
      RemovalKeepsNamesDistinct(inbox, k);
      FilingKeepsDirectory(consumed, file);
      FilingKeepsDirectory(rejected, file);
      lastResult := Some(LastRecord(handling.result));
      Rename(k, handling.destination);
      if handling.reason.Some? {
        reasonFiles := reasonFiles[ReasonName(file.name) := handling.reason.value];
      }
    }
  }

  /** The steps of one file's handling: parse, then reject, fail or apply. */
  method HandleFile(config: DeployerConfig, file: OrderFile, startedAt: Time, appliedAt: Time, finishedAt: Time,
                    fault: Option<string>) returns (handling: Handling)
    ensures handling == Handle(config, file, startedAt, appliedAt, finishedAt, fault)
  {
    var order, errors, defaulted := ParseOrder(Content(file.load), startedAt);
    if errors != [] {
      if order.None? {
        order := Some(UnknownOrder(startedAt, finishedAt));
      }
      var codes := OrderParsing.Codes(errors);
      var result := BuildRejectionResult(order.value, codes, startedAt, finishedAt, defaulted);
      handling := Handling(Rejected, result, Some(ReasonPayload(codes, defaulted)));
    } else if order.None? {
      var result := BuildRejectionResult(UnknownOrder(startedAt, finishedAt), ["invalid_payload"], startedAt, finishedAt, false);
      handling := Handling(Rejected, result, Some(ReasonPayload(["invalid_payload"], false)));
    } else if fault.Some? {
      var result := BuildFailureResult(order.value, fault.value, startedAt, finishedAt, defaulted);
      handling := Handling(Rejected, result, None);
    } else if order.value.consumedAt.None? && UnhashableAction(RawAction(Content(file.load))).Some? {
      var result := BuildFailureResult(order.value, UnhashableAction(RawAction(Content(file.load))).value, startedAt, finishedAt, defaulted);
      handling := Handling(Rejected, result, None);
    } else {
      var applied := Apply(config, order.value, appliedAt);
      var result := BuildExecutionResult(applied, startedAt, finishedAt, defaulted);
      handling := Handling(if applied.outcome == APPLIED then Consumed else Rejected, result, None);
    }
  }

  /** Filing the file at `k` under a name new to both directories: it leaves the inbox and is filed
      in exactly one of the two, which together gain one name (used by OrderQueue.Tick). */
  lemma {:induction false} TickMovesOneFile(inbox: seq<OrderFile>, k: nat, consumed: map<string, OrderFile>,
                                            rejected: map<string, OrderFile>, h: Handling)
    requires k < |inbox|
    requires inbox[k].name !in consumed && inbox[k].name !in rejected
    ensures var file := inbox[k];
      var consumed' := if h.destination == Consumed then consumed[file.name := file] else consumed;
      var rejected' := if h.destination == Rejected then rejected[file.name := file] else rejected;
      |inbox[..k] + inbox[k + 1..]| == |inbox| - 1 &&
      |consumed'.Keys| + |rejected'.Keys| == |consumed.Keys| + |rejected.Keys| + 1 &&
      ((file.name in consumed') != (file.name in rejected'))
  {
    var file := inbox[k];
    if h.destination == Consumed {
      FilingAddsOneName(consumed, file);
    } else {
      FilingAddsOneName(rejected, file);
    }
  }

  /** Filing a file under a name the directory does not hold adds exactly that name. */
  lemma FilingAddsOneName(directory: map<string, OrderFile>, file: OrderFile)
    requires file.name !in directory
    ensures directory[file.name := file].Keys == directory.Keys + {file.name}
    ensures |directory[file.name := file].Keys| == |directory.Keys| + 1
  {
    assert directory[file.name := file].Keys == directory.Keys + {file.name};
  }
}
