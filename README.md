# IKOMA MCP governance pipeline — a Dafny model

IKOMA MCP is a governance pipeline. Every step ends in exactly one of three terminal *expressions*:

- an **Order**, a one-shot instruction that is consumed at most once;
- a **Refusal**, with a reason;
- a **Silence**, with a reason.

This project models the pipeline's core and proves what that core promises.

- **The runner decision engine** (`build_runner_cycle`). It collects normalised reasons from four checks, in a fixed order: the authority check, evidence sufficiency, the engine-transition allow-table and the caller's fallback for insufficient evidence. It then picks the expression kind by a fixed precedence.
- **The static allow-tables** of engine, application, deploy and integration transitions. They deny by omission.
- **The dry-run deployer.** This covers the minimal order contract, the consume-once application of an order and the executor-backed variant (`execute`, `map_execution_status`).
- **The file-based deployer loop.** This covers reading an order file into an order with error codes and defaults, the execution records built from an application, a failure or a rejection, and one polling tick. A tick moves the oldest order file out of the inbox, into `consumed` or into `rejected`.
- **The wiring step.** It turns an optional order into a Silence, a Refusal or an Order, plus one ledger entry.
- **The append-only JSON-lines ledger**, and the bounded tick/run loop of the runtime runner that feeds it.
- **The gateway exposure report**, with its status decision tree and its status→expression table, and the derived gateway views.
- **The runtime API.** This covers its serialisers, including the tagged expression records, which are proved to read back, and the default reports of the API provider.
- **The declarative emitters** and the preflight status→allowed-expressions table.
- **The port sensor.** It parses `/proc/net/tcp` lines and produces the per-port observation.

Modules follow the source files:

| module | source file |
|---|---|
| `RunnerCycle` | runner_cycle.py |
| `Transitions` | transitions.py |
| `Deployer` | runtime_impl.py |
| `Execution` | deployer/runtime |
| `OrderParsing` and `DeployerMain` | deployer/main.py |
| `Wiring` | link/wiring.py |
| `Ledger` | runner/ledger.py |
| `RunnerRuntime` | runner/runtime.py |
| `Gateway` | gateway/runtime/report.py |
| `GatewayViews` | gateway/views.py |
| `Serialization` | runtime_api/serialization.py |
| `Provider` | runtime_api/provider.py |
| `Emit` | runner/emit.py |
| `Preflight` | runner/preflight/contracts.py |
| `Ports` | observability/ports.py |

Shared records and enumerations are in `Values`, `Records` and `Json`.

The imperative parts of the source are modelled as imperative Dafny, each proved against a specification function:

- **Step by step:** `ParseOrder`, `ValidateOrderContract`, `Decide` and `ParseProcNetTcp`.
- **Classes with state:**
  - `Ledger.LedgerWriter`, whose records only grow;
  - `RunnerRuntime.RuntimeRunner`, whose `Run` loop appends one ledger entry per tick;
  - `DeployerMain.OrderQueue`, which holds the inbox, the consumed and rejected directories, the reason files and the last-result file.

Notes on the model:

- **Clock reads.** Every `utcnow()` is a parameter of the operation that reads it.
- **Timestamps** are natural numbers. `isoformat` is their decimal text and `fromisoformat` the matching parse, and the two are proved to round-trip.
- **JSON documents** are values of the `Json` datatype. Objects are maps.

**`UP → FAILED` is an allowed engine transition.** The engine table lists `(UP, FAILED)` as allowed, with the justification "divergence critique prouvée" (ikoma-mcp/core/state/transitions.py:20). The model follows the table, so a cycle reporting `UP → FAILED` records `TRANSITION_ALLOWED` (`RunnerCycle.UpToFailedIsAllowed`).

## Model

| member | source | states |
|---|---|---|
| Values.IsoRoundTrip | packages/ikoma_mcp/src/ikoma_mcp/runtime_api/serialization.py:232-233 | the text form of a timestamp parses back to the same timestamp |
| Values.ParseNatText | packages/ikoma_mcp/src/ikoma_mcp/runtime_api/serialization.py:195 | decimal text of any natural number parses back to that number |
| Values.ParseNat | packages/ikoma_mcp/src/ikoma_mcp/deployer/main.py:66-76 | a parse succeeds exactly on non-empty all-digit text |
| Values.IntText | packages/ikoma_mcp/src/ikoma_mcp/observability/ports.py:54 | `str(port)` is non-empty and starts with a minus sign exactly for a negative port |
| Values.Join | packages/ikoma_mcp/src/ikoma_mcp/deployer/runtime_impl.py:108-109 | joining no parts gives the empty text, joining one part gives that part |
| Values.JoinNonEmpty | packages/ikoma_mcp/src/ikoma_mcp/link/wiring.py:145-147 | a join whose first part is non-empty is non-empty |
| Values.Lower | packages/ikoma_mcp/src/ikoma_mcp/link/wiring.py:146 | lower-casing keeps the length |
| Json.Get | packages/ikoma_mcp/src/ikoma_mcp/deployer/main.py:58-64 | `data.get(key)` is null for an absent key |
| Json.AsText | packages/ikoma_mcp/src/ikoma_mcp/deployer/main.py:58-64 | a decoded value kept as text is empty exactly when it is falsy, and a JSON string is kept as it is |
| Json.AttrsJson | packages/ikoma_mcp/src/ikoma_mcp/runtime_api/serialization.py:155-159 | a string mapping becomes an object with the same keys and each value as a JSON string |
| Json.TextAttrs | packages/ikoma_mcp/src/ikoma_mcp/deployer/main.py:79-82 | a decoded object becomes a string mapping over the same keys |
| Json.TextAttrsOfAttrsJson | packages/ikoma_mcp/src/ikoma_mcp/deployer/main.py:79-82 | reading an encoded mapping back gives the mapping |
| Json.OptionalText | packages/ikoma_mcp/src/ikoma_mcp/runtime_api/serialization.py:60-61 | an optional text is null exactly when it is absent |
| Transitions.EngineTableExactly | ikoma-mcp/core/state/transitions.py:15-22 | the engine table holds exactly its six pairs |
| Transitions.EngineFailureAllowed | ikoma-mcp/core/state/transitions.py:20-21 | (UP, FAILED) and (DEGRADED, FAILED) are allowed |
| Transitions.NoSelfTransitions | ikoma-mcp/core/state/transitions.py:15-46 | no table allows a state to go to itself |
| Transitions.NeverIntoUnknown | ikoma-mcp/core/state/transitions.py:15-46 | no table allows a transition into UNKNOWN |
| Transitions.FailedIsTerminal | ikoma-mcp/core/state/transitions.py:15-31 | FAILED has no outgoing engine or application pair |
| Transitions.DeployOutcomesAreTerminal | ikoma-mcp/core/state/transitions.py:33-37 | every deploy pair starts at UNKNOWN, so APPLIED, REJECTED and FAILED are terminal |
| Transitions.UnavailableIsTerminal | ikoma-mcp/core/state/transitions.py:39-46 | UNAVAILABLE has no outgoing integration pair |
| Records.BuildRuntimeReport | packages/ikoma_mcp/src/ikoma_mcp/runtime/runtime_report.py:27-47 | the runtime report keeps every argument unchanged |
| Preflight.MappingIsTotalAndSelfNamed | packages/ikoma_mcp/src/ikoma_mcp/runner/preflight/contracts.py:75-100 | every status has an entry, named by its own status, with no default expression |
| Preflight.OrderOnlyWhenConditionsSatisfied | packages/ikoma_mcp/src/ikoma_mcp/runner/preflight/contracts.py:94-99 | ORDER is allowed exactly under CONDITIONS_SATISFIED |
| Preflight.BlockingStatusesAllowRefusal | packages/ikoma_mcp/src/ikoma_mcp/runner/preflight/contracts.py:76-93 | INCOHERENT_EVIDENCE and CONDITIONS_UNSATISFIED allow only REFUS; INSUFFICIENT_EVIDENCE allows exactly REFUS and SILENCE |
| Preflight.BuildPreflightReport | packages/ikoma_mcp/src/ikoma_mcp/runner/preflight/contracts.py:103-123 | the preflight report copies every argument unchanged |
| RunnerCycle.PreflightInsufficient | packages/ikoma_mcp/src/ikoma_mcp/runner/runtime/runner_cycle.py:77-81 | true exactly when some preflight report says INSUFFICIENT_EVIDENCE |
| RunnerCycle.ReasonValues | packages/ikoma_mcp/src/ikoma_mcp/runner/runtime/runner_cycle.py:46-64 | the reasons as their values, one for one and in order |
| RunnerCycle.BuildExpression | packages/ikoma_mcp/src/ikoma_mcp/runner/runtime/runner_cycle.py:84-108 | the expression has the chosen kind; a Refusal or Silence gives the reasons joined with ", " as its reason and its metadata; an Order carries the requested identifier and scope, unconsumed |
| RunnerCycle.Decide | packages/ikoma_mcp/src/ikoma_mcp/runner/runtime/runner_cycle.py:19-44 | the step-by-step checks collect exactly the specified reasons and kind |
| RunnerCycle.BuildRunnerCycle | packages/ikoma_mcp/src/ikoma_mcp/runner/runtime/runner_cycle.py:16-74 | the report holds those reasons, an expression of that kind, the summary "expression=" + kind, and the context traces plus exactly one runner trace |
| RunnerCycle.ViolationForcesRefusal | packages/ikoma_mcp/src/ikoma_mcp/runner/runtime/runner_cycle.py:40-44 | OUT_OF_AUTHORITY or CRITICAL_DIVERGENCE among the reasons forces a Refusal, whatever the fallback |
| RunnerCycle.InsufficientEvidenceTakesFallback | packages/ikoma_mcp/src/ikoma_mcp/runner/runtime/runner_cycle.py:26-28 | with authority and no illegal transition, insufficient evidence yields exactly the caller's fallback |
| RunnerCycle.TransitionVerdict | packages/ikoma_mcp/src/ikoma_mcp/runner/runtime/runner_cycle.py:30-35 | CRITICAL_DIVERGENCE is present exactly for an unlisted pair, TRANSITION_ALLOWED exactly for a listed one |
| RunnerCycle.ObservedOnlyWhenClean | packages/ikoma_mcp/src/ikoma_mcp/runner/runtime/runner_cycle.py:37-38 | the reasons are never empty; OBSERVED appears exactly when no check fired, and then alone |
| RunnerCycle.OrderOnlyFromFallback | packages/ikoma_mcp/src/ikoma_mcp/runner/runtime/runner_cycle.py:20-44 | a clean cycle is silent, and an Order comes only from an ORDER evidence fallback |
| RunnerCycle.ReasonsOrderedAndDistinct | packages/ikoma_mcp/src/ikoma_mcp/runner/runtime/runner_cycle.py:22-38 | the reasons appear in authority, evidence, transition order, each at most once |
| RunnerCycle.DecisionIgnoresHealthAndOtherStatuses | packages/ikoma_mcp/src/ikoma_mcp/runner/runtime/runner_cycle.py:77-81 | replacing the health reports, or the preflight reports without changing whether one says INSUFFICIENT_EVIDENCE, changes neither the reasons nor the kind |
| RunnerCycle.UpToFailedIsAllowed | ikoma-mcp/core/state/transitions.py:20 | a clean cycle reporting UP → FAILED gives only TRANSITION_ALLOWED and stays silent |
| Deployer.PayloadText | packages/ikoma_mcp/src/ikoma_mcp/deployer/runtime_impl.py:42-49 | an absent payload key reads as the empty text |
| Deployer.Codes | packages/ikoma_mcp/src/ikoma_mcp/deployer/runtime_impl.py:26-51 | the codes of the errors, one for one and in order |
| Deployer.ValidateOrderContract | packages/ikoma_mcp/src/ikoma_mcp/deployer/runtime_impl.py:26-51 | the step-by-step checks return exactly the contract errors |
| Deployer.ContractErrorsEmptyIffConforms | packages/ikoma_mcp/src/ikoma_mcp/deployer/runtime_impl.py:29-51 | no error exactly when scope, identifier, target and release reference are non-empty and the action is allowed |
| Deployer.ContractErrorsReportEachGap | packages/ikoma_mcp/src/ikoma_mcp/deployer/runtime_impl.py:30-49 | each code is reported exactly when its own field fails, independently of the others; missing_created_at never arises |
| Deployer.EmptyPayloadReportsAllThree | packages/ikoma_mcp/src/ikoma_mcp/deployer/runtime_impl.py:42-49 | a missing action, target and release reference are all reported, in that order |
| Deployer.ActionCodesExclusive | packages/ikoma_mcp/src/ikoma_mcp/deployer/runtime_impl.py:43-45 | invalid_payload_action and missing_payload_action never appear together |
| Deployer.ContractErrorsOrdered | packages/ikoma_mcp/src/ikoma_mcp/deployer/runtime_impl.py:29-51 | errors come in check order (scope, identifier, created_at, action, target, release_ref), each at most once |
| Deployer.BoolText | packages/ikoma_mcp/src/ikoma_mcp/deployer/runtime_impl.py:87 | `str(flag).lower()` is "true" exactly for true and "false" exactly for false |
| Deployer.Apply | packages/ikoma_mcp/src/ikoma_mcp/deployer/runtime_impl.py:64-124 | a consumed order is REJECTED unchanged; an unconsumed one is consumed at the apply time and APPLIED exactly when it conforms; the facts are deploy.attempted (parent act, order id, scope, dry_run) then deploy.outcome; the one deployer trace carries parent act, event "apply", order id, outcome and dry_run, and "errors" exactly when there are errors, joined by "," |
| Deployer.ReapplyRejected | packages/ikoma_mcp/src/ikoma_mcp/deployer/runtime_impl.py:71-74 | re-consumption is REJECTED with exactly ["order_already_consumed"] and the order untouched |
| Deployer.AtMostOnce | packages/ikoma_mcp/src/ikoma_mcp/deployer/runtime_impl.py:71-78 | applying the returned order again is always REJECTED and keeps the first consumption time |
| Execution.MapExecutionStatus | packages/ikoma_mcp/src/ikoma_mcp/deployer/runtime/contracts.py:57-64 | APPLIED, FAILED and UNKNOWN map to the deploy state of the same name, never REJECTED |
| Execution.MapExecutionStatusInjective | packages/ikoma_mcp/src/ikoma_mcp/deployer/runtime/contracts.py:57-64 | distinct statuses map to distinct deploy states |
| Execution.ExecutionTraceMetadata | packages/ikoma_mcp/src/ikoma_mcp/deployer/runtime/execute.py:52-65 | raw_result and raw_error keys are present exactly when the values are; status and both times are recorded |
| Execution.Execute | packages/ikoma_mcp/src/ikoma_mcp/deployer/runtime/execute.py:14-85 | status and raw values are the executor's; the deploy state is the mapped status; consumed_at is set to the finish time exactly when it was unset; two facts in order; one deployer trace |
| Execution.ExecuteConsumesOnce | packages/ikoma_mcp/src/ikoma_mcp/deployer/runtime/execute.py:26-28 | executing the returned order again keeps its first consumption time |
| OrderParsing.Codes | packages/ikoma_mcp/src/ikoma_mcp/deployer/main.py:47-99 | the codes of the parse errors, one for one and in order |
| OrderParsing.TextOr | packages/ikoma_mcp/src/ikoma_mcp/deployer/main.py:58-64 | `data.get(key) or default`: the value's text when truthy, else the default |
| OrderParsing.ParseCreatedAt | packages/ikoma_mcp/src/ikoma_mcp/deployer/main.py:66-76 | a falsy created_at defaults to now without an error; an unparsable one is invalid_created_at, falls back to now and is not defaulted |
| OrderParsing.ParseMetadata | packages/ikoma_mcp/src/ikoma_mcp/deployer/main.py:79-82 | a truthy non-object is invalid_metadata and becomes empty |
| OrderParsing.ParseConsumedAt | packages/ikoma_mcp/src/ikoma_mcp/deployer/main.py:84-89 | an unparsable consumed_at is invalid_consumed_at and stays None |
| OrderParsing.PresenceErrors | packages/ikoma_mcp/src/ikoma_mcp/deployer/main.py:58-64 | a falsy field adds exactly its error |
| OrderParsing.Content | packages/ikoma_mcp/src/ikoma_mcp/deployer/main.py:48-53 | a file yields content exactly when it was read and decoded, and then the decoded value |
| OrderParsing.ParseAsWritten | packages/ikoma_mcp/src/ikoma_mcp/deployer/main.py:47-53 | `_parse_order` raises exactly for a file whose reading gives any read error other than JSONDecodeError or OSError (bytes that are not UTF-8, an integer literal past the 4300-digit limit, or nesting past the recursion limit), because only those two are caught; any other file gets the parse of its content |
| OrderParsing.ParsedOrder | packages/ikoma_mcp/src/ikoma_mcp/deployer/main.py:47-99 | unreadable JSON gives (no order, [invalid_json], false); a non-object gives (no order, [invalid_payload], false); an object always gives an order |
| OrderParsing.ParseOrder | packages/ikoma_mcp/src/ikoma_mcp/deployer/main.py:47-99 | the step-by-step parse returns exactly the specified order, errors and flag |
| OrderParsing.NoOrderOnlyWithErrors | packages/ikoma_mcp/src/ikoma_mcp/deployer/main.py:48-56 | no order only for unusable content and never with an empty error list, so the branch at lines 336-357 is unreachable |
| OrderParsing.IdentifierAndScopeRules | packages/ikoma_mcp/src/ikoma_mcp/deployer/main.py:58-64 | a missing identifier or scope is reported and set to "unknown", exactly when falsy |
| OrderParsing.CreatedAtRules | packages/ikoma_mcp/src/ikoma_mcp/deployer/main.py:66-76 | defaulted exactly when created_at is falsy; invalid_created_at exactly when it is truthy and unparsable |
| OrderParsing.RemainingDefaults | packages/ikoma_mcp/src/ikoma_mcp/deployer/main.py:78-89 | acte_parent defaults to ACTE_IV; invalid metadata becomes empty; an invalid consumed_at stays None |
| OrderParsing.ErrorsOrdered | packages/ikoma_mcp/src/ikoma_mcp/deployer/main.py:47-99 | errors come in field order, each at most once |
| OrderParsing.ClockOnlyFillsCreatedAt | packages/ikoma_mcp/src/ikoma_mcp/deployer/main.py:66-76 | the clock affects nothing but a fallback creation time |
| OrderParsing.SerializedOrderParsesBack | packages/ikoma_mcp/src/ikoma_mcp/deployer/main.py:47-99 | an order record with non-empty identifier, scope and parent act parses back to the order, with no error and no default |
| DeployerMain.MapDeployerOutcome | packages/ikoma_mcp/src/ikoma_mcp/deployer/main.py:118-125 | APPLIED → (APPLIED, APPLIED), FAILED → (FAILED, FAILED), REJECTED → (UNKNOWN, REJECTED) |
| DeployerMain.DefaultedFacts | packages/ikoma_mcp/src/ikoma_mcp/deployer/main.py:138-151 | one order.created_at.defaulted fact exactly when defaulted |
| DeployerMain.DefaultedTraces | packages/ikoma_mcp/src/ikoma_mcp/deployer/main.py:138-151 | one deployer trace marking the default exactly when defaulted |
| DeployerMain.ConsumeAt | packages/ikoma_mcp/src/ikoma_mcp/deployer/main.py:173-174 | an existing consumed_at is kept, otherwise it is the finish time |
| DeployerMain.BuildExecutionResult | packages/ikoma_mcp/src/ikoma_mcp/deployer/main.py:128-162 | the mapped status pair, the applied order, its facts and traces followed by the default marks, raw_result "Order " + outcome |
| DeployerMain.BuildFailureResult | packages/ikoma_mcp/src/ikoma_mcp/deployer/main.py:165-221 | FAILED/FAILED, the order consumed at the finish time if it was not already, one status fact (order id, FAILED, FAILED) and one trace (event "apply_failed", order id, scope, error), then the default marks |
| DeployerMain.BuildRejectionResult | packages/ikoma_mcp/src/ikoma_mcp/deployer/main.py:224-275 | UNKNOWN/REJECTED, the order consumed at the finish time if it was not already, one validation fact and one trace (event "validation_failed", order id, the joined errors), then the default marks |
| DeployerMain.DefaultedAddsOneMark | packages/ikoma_mcp/src/ikoma_mcp/deployer/main.py:138-151 | a defaulted creation time adds exactly one fact and one trace to each record and changes nothing else |
| DeployerMain.ReasonPayload | packages/ikoma_mcp/src/ikoma_mcp/deployer/main.py:109-115 | the reason file lists the errors in order with the defaulted flag |
| DeployerMain.Stem | packages/ikoma_mcp/src/ikoma_mcp/deployer/main.py:114 | a file name is its stem followed by ".json" |
| DeployerMain.OldestIsUnique | packages/ikoma_mcp/src/ikoma_mcp/deployer/main.py:303-306 | at most one file is the first of the stable sort by modification time |
| DeployerMain.Oldest | packages/ikoma_mcp/src/ikoma_mcp/deployer/main.py:303-306 | None exactly when no file matches, otherwise the first file of the stable sort by modification time |
| DeployerMain.RawAction | packages/ikoma_mcp/src/ikoma_mcp/deployer/runtime_impl.py:37-38 | a non-null action is the "action" entry of the content's metadata object |
| DeployerMain.UnhashableAction | packages/ikoma_mcp/src/ikoma_mcp/deployer/runtime_impl.py:42-45 | `action not in {...}` raises exactly for a truthy list or object action |
| DeployerMain.UnhashableActionIsNotAllowed | packages/ikoma_mcp/src/ikoma_mcp/deployer/runtime_impl.py:42-45 | an order whose action is a list or an object does not conform |
| DeployerMain.UnhashableActionFails | packages/ikoma_mcp/src/ikoma_mcp/deployer/main.py:382-394 | a cleanly parsed unconsumed order with a list or object action goes to rejected without a reason file, recorded FAILED with the TypeError's message |
| DeployerMain.AppliedExactlyWhenConforming | packages/ikoma_mcp/src/ikoma_mcp/deployer/main.py:362-373 | the application is APPLIED exactly for an unconsumed conforming order, and recorded with deploy state APPLIED exactly then |
| DeployerMain.ConsumedExactlyWhenRecordedApplied | packages/ikoma_mcp/src/ikoma_mcp/deployer/main.py:360-394 | a handled file goes to consumed exactly when its record's deploy state is APPLIED |
| DeployerMain.UndecodableFileIsRejected | packages/ikoma_mcp/src/ikoma_mcp/deployer/main.py:311-334 | with every read error caught, a file whose reading raises any read error other than JSONDecodeError or OSError (bytes that are not UTF-8, an integer literal past the 4300-digit limit, or nesting past the recursion limit) is rejected as invalid_json with a reason file |
| DeployerMain.UndecodableFileStopsTheLoop | packages/ikoma_mcp/src/ikoma_mcp/deployer/main.py:303-310 | an inbox holding one file whose reading raises an uncaught error (e.g. bytes that are not UTF-8): that file is the oldest and `_parse_order` raises on it |
| DeployerMain.ConsumedExactlyWhenAccepted | packages/ikoma_mcp/src/ikoma_mcp/deployer/main.py:360-380 | a file goes to consumed exactly when it parses cleanly into an accepted order and applying raised nothing, and exactly when the deploy state is APPLIED |
| DeployerMain.ReasonOnlyForParseErrors | packages/ikoma_mcp/src/ikoma_mcp/deployer/main.py:311-334 | a reason file is written exactly when parsing reported errors, and it lists them |
| DeployerMain.RemovalKeepsNamesDistinct | packages/ikoma_mcp/src/ikoma_mcp/deployer/main.py:331 | taking a file out of the inbox keeps its names distinct |
| DeployerMain.FilingKeepsDirectory | packages/ikoma_mcp/src/ikoma_mcp/deployer/main.py:375-376 | filing a file under its own name keeps the directory filed by name, and keeps it all-accepted for an accepted file |
| DeployerMain.FilingAddsOneName | packages/ikoma_mcp/src/ikoma_mcp/deployer/main.py:375-376 | filing under a new name adds exactly that name |
| DeployerMain.OrderQueue.constructor | packages/ikoma_mcp/src/ikoma_mcp/deployer/main.py:301-303 | an inbox of distinct names, empty consumed and rejected directories, no reason file and no last result |
| DeployerMain.OrderQueue.Rename | packages/ikoma_mcp/src/ikoma_mcp/deployer/main.py:376 | the file leaves the inbox and is filed in exactly the chosen directory under its own name |
| DeployerMain.OrderQueue.File | packages/ikoma_mcp/src/ikoma_mcp/deployer/main.py:330-332 | the last result, the move and the reason file are written as the handling says |
| DeployerMain.OrderQueue.Tick | packages/ikoma_mcp/src/ikoma_mcp/deployer/main.py:301-398 | with no order file nothing changes; otherwise the oldest file leaves the inbox for the directory its handling picks, with its last result and reason file; when its name is new to both directories, the two together gain exactly that one name |
| DeployerMain.OrderQueue.TickAsWritten | packages/ikoma_mcp/src/ikoma_mcp/deployer/main.py:303-310 | the pass raises exactly when reading the oldest file gives any read error other than JSONDecodeError or OSError (bytes that are not UTF-8, an integer literal past the 4300-digit limit, or nesting past the recursion limit), and then changes nothing, so that file stays the oldest; any other pass files the oldest file, its record and its reason file exactly as `Tick` does |
| DeployerMain.HandleFile | packages/ikoma_mcp/src/ikoma_mcp/deployer/main.py:309-394 | the step-by-step handling returns exactly the specified handling |
| DeployerMain.TickMovesOneFile | packages/ikoma_mcp/src/ikoma_mcp/deployer/main.py:331 | filing the file at a position under a name new to both directories removes it from the inbox and adds it to exactly one of consumed and rejected |
| Wiring.LinkTrace | packages/ikoma_mcp/src/ikoma_mcp/link/wiring.py:36-45 | a link trace carries the parent act and the event, updated by the given metadata |
| Wiring.ExtractErrors | packages/ikoma_mcp/src/ikoma_mcp/link/wiring.py:52-57 | the first non-empty errors value in trace order, or None exactly when no trace has one |
| Wiring.WireStep | packages/ikoma_mcp/src/ikoma_mcp/link/wiring.py:64-196 | the ledger entry's expression is the returned one; the deployer is called exactly for an unconsumed order; the parent act comes from the order when there is one |
| Wiring.WireNoOrder | packages/ikoma_mcp/src/ikoma_mcp/link/wiring.py:72-90 | no order gives Silence "no_order", no deployer result and one silence link trace |
| Wiring.WireConsumedOrder | packages/ikoma_mcp/src/ikoma_mcp/link/wiring.py:93-119 | a consumed order gives Refusal "order_already_consumed" without calling the deployer |
| Wiring.WireApplied | packages/ikoma_mcp/src/ikoma_mcp/link/wiring.py:123-143 | APPLIED gives exactly the deployer's order, and the deployer's facts and traces plus one link fact and one link trace |
| Wiring.WireNotApplied | packages/ikoma_mcp/src/ikoma_mcp/link/wiring.py:144-181 | any other outcome gives Refusal "deployer_" + lower(outcome), followed by ":" + errors when the traces carry errors |
| Wiring.RejectionErrorsExtracted | packages/ikoma_mcp/src/ikoma_mcp/link/wiring.py:52-57 | the dry-run deployer's rejection carries its joined contract codes as the first errors |
| Wiring.WireConformingOrder | packages/ikoma_mcp/src/ikoma_mcp/link/wiring.py:121-143 | wired to the dry-run deployer, a conforming unconsumed order comes out consumed at the apply time |
| Wiring.WireNonConformingOrder | packages/ikoma_mcp/src/ikoma_mcp/link/wiring.py:144-181 | wired to the dry-run deployer, a non-conforming order is refused as "deployer_rejected:" + its contract codes |
| Wiring.RejectionReason | packages/ikoma_mcp/src/ikoma_mcp/link/wiring.py:145-147 | a rejection with errors reads "deployer_rejected:" + errors |
| Ledger.SerializeDecision | packages/ikoma_mcp/src/ikoma_mcp/runner/ledger.py:77-81 | the decision record holds the summary and the decision facts |
| Ledger.SerializeOptionalExpression | packages/ikoma_mcp/src/ikoma_mcp/runner/ledger.py:92-123 | a missing expression is null, a present one its tagged record |
| Ledger.RecordShape | packages/ikoma_mcp/src/ikoma_mcp/runner/ledger.py:33-44 | a record has exactly the seven entry fields; facts, evidence and traces keep length and order |
| Ledger.RecordExpressionReadsBack | packages/ikoma_mcp/src/ikoma_mcp/runner/ledger.py:92-123 | an entry's expression reads back from its record |
| Ledger.Lines | packages/ikoma_mcp/src/ikoma_mcp/runner/ledger.py:57-63 | one record per entry, in order |
| Ledger.LinesSnoc | packages/ikoma_mcp/src/ikoma_mcp/runner/ledger.py:57-63 | one more entry adds exactly its record at the end |
| Ledger.LedgerWriter.constructor | packages/ikoma_mcp/src/ikoma_mcp/runner/ledger.py:47-56 | a writer on a file holding the given records |
| Ledger.LedgerWriter.Append | packages/ikoma_mcp/src/ikoma_mcp/runner/ledger.py:57-63 | exactly one record is added, and the earlier content is an unchanged prefix |
| RunnerRuntime.DefaultRuntimeConfig | packages/ikoma_mcp/src/ikoma_mcp/runner/config.py:8-14 | the default parent act is "ACTE_V" and there is no ledger path |
| RunnerRuntime.RuntimeRunner.constructor | packages/ikoma_mcp/src/ikoma_mcp/runner/runtime.py:36-51 | a ledger writer exists exactly when a ledger path is configured |
| RunnerRuntime.RuntimeRunner.Tick | packages/ikoma_mcp/src/ikoma_mcp/runner/runtime.py:57-76 | the provider facts and evidence unchanged, their decision, and the provided traces plus one runtime tick trace |
| RunnerRuntime.RuntimeRunner.EntryOf | packages/ikoma_mcp/src/ikoma_mcp/runner/runtime.py:85-94 | a tick's ledger entry carries its data, the configured parent act and no expression |
| RunnerRuntime.RuntimeRunner.RunEntries | packages/ikoma_mcp/src/ikoma_mcp/runner/runtime.py:85-95 | one entry per tick, in order |
| RunnerRuntime.RuntimeRunner.RunEntriesSnoc | packages/ikoma_mcp/src/ikoma_mcp/runner/runtime.py:85-95 | one more tick appends exactly its entry |
| RunnerRuntime.RuntimeRunner.Run | packages/ikoma_mcp/src/ikoma_mcp/runner/runtime.py:78-99 | exactly max(n, 0) ticks, each the i-th tick; with a ledger, exactly their records appended to it in tick order |
| RunnerRuntime.RuntimeRunner.LogTick | packages/ikoma_mcp/src/ikoma_mcp/runner/runtime.py:85-95 | appending one tick's entry extends the log by its record |
| RunnerRuntime.RunRecordsCarryTicks | packages/ikoma_mcp/src/ikoma_mcp/runner/runtime.py:85-94 | each appended record carries its tick's parent act, facts and traces and a null expression |
| Gateway.MappingIsTotalAndSingleton | packages/ikoma_mcp/src/ikoma_mcp/gateway/runtime/report.py:52-71 | total table; each allowed set is the singleton default; CONFIRMED→ORDER, INSUFFICIENT_EVIDENCE→SILENCE, INCOHERENT→REFUS |
| Gateway.DeriveStatus | packages/ikoma_mcp/src/ikoma_mcp/gateway/runtime/report.py:118-130 | no proof gives INSUFFICIENT_EVIDENCE or INCOHERENT by whether the state is UNKNOWN; proof without a valid order gives INCOHERENT; proof with one gives INSUFFICIENT_EVIDENCE or CONFIRMED |
| Gateway.ConfirmedNeedsProofAndValidOrder | packages/ikoma_mcp/src/ikoma_mcp/gateway/runtime/report.py:118-130 | CONFIRMED exactly with proof, a valid order and a known state |
| Gateway.BuildExpression | packages/ikoma_mcp/src/ikoma_mcp/gateway/runtime/report.py:133-164 | ORDER re-issues the request order consumed at the report time; REFUS and SILENCE carry their fixed reasons |
| Gateway.BuildGatewayReport | packages/ikoma_mcp/src/ikoma_mcp/gateway/runtime/report.py:74-115 | the derived status, the table's default kind, the context facts and traces plus exactly one status fact and one gateway trace |
| Gateway.ConfirmedIssuesConsumedOrder | packages/ikoma_mcp/src/ikoma_mcp/gateway/runtime/report.py:138-153 | a confirmed report re-issues the request order consumed at the report time; the missing-order Refusal never occurs |
| Gateway.ReportExpressionAllowed | packages/ikoma_mcp/src/ikoma_mcp/gateway/runtime/report.py:74-115 | the report's expression is always one its status allows |
| GatewayViews.DeriveGatewayView | packages/ikoma_mcp/src/ikoma_mcp/gateway/views.py:22-31 | without primary evidence the state is UNKNOWN, otherwise the snapshot's; target and evidence are copied |
| GatewayViews.DeriveGatewayViews | packages/ikoma_mcp/src/ikoma_mcp/gateway/views.py:34-37 | one view per snapshot, in order |
| GatewayViews.DeriveIdempotent | packages/ikoma_mcp/src/ikoma_mcp/gateway/views.py:22-31 | deriving again from a view gives the same view |
| GatewayViews.DeriveViewsIdempotent | packages/ikoma_mcp/src/ikoma_mcp/gateway/views.py:34-37 | deriving again from the views gives the same views |
| Serialization.IsoOpt | packages/ikoma_mcp/src/ikoma_mcp/runtime_api/serialization.py:232-233 | an absent time is null, a present one its text |
| Serialization.JList | packages/ikoma_mcp/src/ikoma_mcp/runtime_api/serialization.py:58-59 | a list keeps its length and order |
| Serialization.SerializeOrder | packages/ikoma_mcp/src/ikoma_mcp/runtime_api/serialization.py:191-199 | exactly the six order fields; consumed_at is null exactly for an unconsumed order |
| Serialization.SerializeOptionalOrder | packages/ikoma_mcp/src/ikoma_mcp/runtime_api/serialization.py:185-188 | a missing order is null |
| Serialization.SerializeExpression | packages/ikoma_mcp/src/ikoma_mcp/runtime_api/serialization.py:202-229 | tagged "order", "refusal" or "silence"; only the Order record has identifier, scope and consumed_at, only the others a reason |
| Serialization.OrderRoundTrip | packages/ikoma_mcp/src/ikoma_mcp/runtime_api/serialization.py:191-199 | an order record reads back as the order |
| Serialization.TaggedOrderRoundTrip | packages/ikoma_mcp/src/ikoma_mcp/runtime_api/serialization.py:203-212 | the tagged order record reads back as the order |
| Serialization.ReasonFieldsRoundTrip | packages/ikoma_mcp/src/ikoma_mcp/runtime_api/serialization.py:213-228 | every field of a Refusal or Silence record reads back |
| Serialization.ExpressionRoundTrip | packages/ikoma_mcp/src/ikoma_mcp/runtime_api/serialization.py:202-229 | every expression record reads back as the expression |
| Serialization.DeployerLastShape | packages/ikoma_mcp/src/ikoma_mcp/runtime_api/serialization.py:53-64 | exactly nine fields; status and deploy_state as their values; facts and traces in order; both times |
| Serialization.SerializeRunnerDecision | packages/ikoma_mcp/src/ikoma_mcp/runtime_api/serialization.py:129-134 | the summary, the reasons as their values in order, and the parent act |
| Serialization.SerializeRuntimeReport | packages/ikoma_mcp/src/ikoma_mcp/runtime_api/serialization.py:28-37 | the report's expression as its tagged record |
| Serialization.SerializeRunnerCycle | packages/ikoma_mcp/src/ikoma_mcp/runtime_api/serialization.py:40-50 | the decision and the expression records |
| Serialization.SerializeGatewayExposure | packages/ikoma_mcp/src/ikoma_mcp/runtime_api/serialization.py:67-77 | the status value and the expression record |
| Provider.BuildDefaultCycle | packages/ikoma_mcp/src/ikoma_mcp/runtime_api/provider.py:130-132 | the clock is (0, 0, 0), opened at the given time and not closed |
| Provider.GetRuntimeStatus | packages/ikoma_mcp/src/ikoma_mcp/runtime_api/provider.py:47-68 | INIT with empty lists and reports, Silence "runtime_status_unknown" |
| Provider.GetRunnerCycle | packages/ikoma_mcp/src/ikoma_mcp/runtime_api/provider.py:70-93 | summary "cycle_report_unavailable", no reasons, Silence "runner_cycle_unknown" |
| Provider.GetDeployerLast | packages/ikoma_mcp/src/ikoma_mcp/runtime_api/provider.py:95-115 | UNKNOWN status and state, an unconsumed "unknown" order, started_at == finished_at |
| Provider.GetGatewayExposure | packages/ikoma_mcp/src/ikoma_mcp/runtime_api/provider.py:117-127 | the gateway report of a request with no order, no proof and an UNKNOWN state |
| Provider.DeployerLastStateIsMapped | packages/ikoma_mcp/src/ikoma_mcp/runtime_api/provider.py:95-115 | the default deploy state is the mapped default status |
| Provider.DefaultGatewayIsSilent | packages/ikoma_mcp/src/ikoma_mcp/runtime_api/provider.py:117-127 | the default gateway report is INSUFFICIENT_EVIDENCE with a Silence |
| Emit.MetadataOrEmpty | packages/ikoma_mcp/src/ikoma_mcp/runner/emit.py:30 | absent metadata becomes {} |
| Emit.EmitOrder | packages/ikoma_mcp/src/ikoma_mcp/runner/emit.py:17-31 | keeps identifier and scope, created now, unconsumed |
| Emit.EmitRefusal | packages/ikoma_mcp/src/ikoma_mcp/runner/emit.py:34-46 | a Refusal keeping the reason |
| Emit.EmitSilence | packages/ikoma_mcp/src/ikoma_mcp/runner/emit.py:49-61 | a Silence keeping the reason |
| Emit.EmitDefaults | packages/ikoma_mcp/src/ikoma_mcp/runner/emit.py:17-61 | by default the metadata is {} and the parent act ACTE_IV |
| Emit.EmittedRegistry.AsRegistry | packages/ikoma_mcp/src/ikoma_mcp/runner/emit.py:72-79 | the registry keeps expressions, parent act and creation time |
| Ports.Fields | packages/ikoma_mcp/src/ikoma_mcp/observability/ports.py:20 | `line.split()` gives non-empty fields without whitespace |
| Ports.FieldsOfJoin | packages/ikoma_mcp/src/ikoma_mcp/observability/ports.py:20 | splitting words joined by single spaces gives the words back |
| Ports.DecimalRunZero | packages/ikoma_mcp/src/ikoma_mcp/observability/ports.py:29 | a code point outside ASCII is a decimal digit exactly when it lies in one of the runs of ten that Unicode 15.0 classes as decimal digits |
| Ports.ParseHex | packages/ikoma_mcp/src/ikoma_mcp/observability/ports.py:28-31 | `int(text, 16)` succeeds exactly on well-formed hexadecimal text, with its sign; ASCII hexadecimal digits and the decimal digits of every script count |
| Ports.ArabicIndicDigits | packages/ikoma_mcp/src/ikoma_mcp/observability/ports.py:29 | Arabic-Indic one then two read in base 16 as 18 |
| Ports.ParseHexText | packages/ikoma_mcp/src/ikoma_mcp/observability/ports.py:29 | the hexadecimal text of a number parses back to it |
| Ports.ReadLine | packages/ikoma_mcp/src/ikoma_mcp/observability/ports.py:20-32 | a data line gives a port exactly when it has four fields, state "0A" and a local address with one colon followed by valid hexadecimal |
| Ports.ScanMembers | packages/ikoma_mcp/src/ikoma_mcp/observability/ports.py:19-33 | a port is found exactly when some data line gives it |
| Ports.ParseProcNetTcp | packages/ikoma_mcp/src/ikoma_mcp/observability/ports.py:14-33 | the loop returns exactly the specified ports; a missing file gives the empty set |
| Ports.ReadDataLine | packages/ikoma_mcp/src/ikoma_mcp/observability/ports.py:20-32 | the loop body reads one line as specified |
| Ports.CollectListeningPorts | packages/ikoma_mcp/src/ikoma_mcp/observability/ports.py:36-40 | the union of both tables' ports |
| Ports.HeaderIgnored | packages/ikoma_mcp/src/ikoma_mcp/observability/ports.py:19 | the header line never contributes |
| Ports.ListeningLineContributes | packages/ikoma_mcp/src/ikoma_mcp/observability/ports.py:23-32 | a listening line with a `host:HEX` address contributes exactly that port |
| Ports.PortStatus | packages/ikoma_mcp/src/ikoma_mcp/observability/ports.py:52 | "listening" exactly when the port is in the set, "absent" otherwise |
| Ports.Observe | packages/ikoma_mcp/src/ikoma_mcp/observability/ports.py:51-71 | one fact, one primary evidence and one trace per port, in order, and no secondary evidence |
| Ports.ObserveSnoc | packages/ikoma_mcp/src/ikoma_mcp/observability/ports.py:51-64 | one more port appends its fact, evidence and trace |
| Ports.ObserveListening | packages/ikoma_mcp/src/ikoma_mcp/observability/ports.py:51-71 | the loop builds exactly the specified observation |
| Ports.ObservePorts | packages/ikoma_mcp/src/ikoma_mcp/observability/ports.py:43-71 | the observation against both tables' listening ports |
| Ports.ListeningMeansALine | packages/ikoma_mcp/src/ikoma_mcp/observability/ports.py:43-52 | a port is reported listening exactly when a data line of either table gives it |

## Findings

| source | as written | input that shows it | evidently intended | confidence | as-written member | corrected member |
|---|---|---|---|---|---|---|
| packages/ikoma_mcp/src/ikoma_mcp/deployer/main.py:48-53 | `_parse_order` reads the file with `read_text(encoding="utf-8")` and catches only `json.JSONDecodeError` and `OSError`, so the UnicodeDecodeError of a file that is not UTF-8 escapes, as do the plain ValueError of an integer literal past the 4300-digit limit and the RecursionError of nesting past the recursion limit. The call at main.py:310 is outside the loop's `try`, so the loop stops, and the file stays the oldest in the inbox. | an inbox holding one file `order.json` whose bytes are `ff` | the file is rejected as `invalid_json`, with a reason file, like any other unreadable order | high; not executed | DeployerMain.UndecodableFileStopsTheLoop | DeployerMain.UndecodableFileIsRejected |

The rest of the model uses the corrected reading: `OrderQueue.Tick` rejects such a file. `OrderQueue.TickAsWritten` models the pass as written, which raises on it and changes nothing.

## Left out

- JSON text: `json.dumps`/`json.loads` and key order are not modelled. The ledger file and the last-result file are sequences of JSON values, one record per line. A file that cannot be read or is not JSON has no content.
- Wall clock: every `datetime.utcnow()` read is a parameter. `isoformat`/`fromisoformat` are modelled as decimal text of a natural-number timestamp and its parse, so the real ISO-8601 grammar is not modelled.
- Values kept as text: a truthy decoded JSON value that is not a string, where the source keeps it in a string field, is modelled by a fixed stand-in text. Its truthiness is kept, and it is never an allowed action.
- Deployer.Apply: an order's metadata is text, so an order whose action is a list or an object, on which `apply` raises TypeError, cannot be given to it. The deployer loop decides that case from the file's content instead (`DeployerMain.UnhashableActionFails`).
- Wiring.WireStep: `apply` is a total function of an order with text metadata. The TypeError that `apply` raises for a list or object action, and which `wire_step` lets escape, is not modelled there.
- The authority check: `AuthorityCheck.has_authority` is a predicate parameter.
- Providers and executors: the runtime runner's providers, the wiring's `apply` and the execution's executor are function parameters. The i-th tick of a run sees the providers' i-th answers.
- Faults in the deployer loop: beyond the TypeError of a list or object action and the read errors of `_parse_order`, an exception is modelled only as `apply` raising (a `fault` parameter). Filesystem errors, logging, and errors raised while writing files are not modelled.
- Filesystem collisions: name collisions between the inbox and the target directories, and overwrites on rename, are not modelled. Each directory is a map from file name to file, and the reason files are a separate map, so collisions between order names and reason names are not modelled either.
- Directory scan: modification times are a given key. `os.replace`, `Path.rename` and the atomic write are single assignments.
- Unbounded runs: `run(max_ticks=None)` loops forever and is left out, as are `time.sleep` and the float `interval_seconds`.
- Concurrency: the stop flag, signal handlers and cross-process visibility are left out.
- The port parser's exceptions: the unpack of `local_address.split(":")` raises when the address does not hold exactly one colon. This failure is modelled as a `None` result of the whole parse, and of the observation, rather than an exception.
- The port parser's input: reading `/proc/net/tcp` is a parameter, the file's lines or `None` when it does not exist.
- Entry points and transport: HTTP serving, the gateway and runner entry points, the filesystem probes (files, process, systemd) and the Protocol interfaces are not part of this model.
- Broken imports: the modules that import non-existent names are not part of this model. The wiring's `ApplyResult` is modelled as `DeployResult`.
- The last-result record: `serialize_deployer_last` is modelled as a JSON value; its field values are stated by `Serialization.DeployerLastShape`.
