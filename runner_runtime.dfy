/** The minimal runtime runner: each tick collects facts and evidence from its providers, asks the
    decision provider, and adds one runtime trace; a bounded run repeats the tick and, when a
    ledger path is configured, appends one entry per tick to the ledger. */
module RunnerRuntime {
  import opened Values
  import opened Json
  import opened Ledger

  /** The runner configuration; the sleep interval is not modelled. */
  datatype RuntimeConfig = RuntimeConfig(acteParent: string, ledgerPath: Option<string>)

  /** The default configuration: parent act "ACTE_V" and no ledger. */
  function DefaultRuntimeConfig(): (config: RuntimeConfig)
    ensures config.acteParent == "ACTE_V" && config.ledgerPath.None?
  {
    RuntimeConfig("ACTE_V", None)
  }

  datatype RuntimeTick = RuntimeTick(
    facts: seq<Fact>,
    evidence: seq<EvidenceSet>,
    decision: Decision,
    traces: seq<Trace>)

  /** The trace every tick ends with. */
  function TickTrace(acteParent: string, now: Time): Trace {
    Trace(now, "runtime", map["acte_parent" := acteParent, "event" := "tick"])
  }

  class RuntimeRunner {
    /** The providers; the i-th tick of a run sees their i-th answers. */
    const factProvider: nat -> seq<Fact>
    const evidenceProvider: nat -> seq<EvidenceSet>
    const decisionProvider: (seq<Fact>, seq<EvidenceSet>) -> Decision
    const traceProvider: Option<nat -> seq<Trace>>
    const config: RuntimeConfig
    /** The ledger writer, present exactly when a ledger path is configured. */
    const ledger: LedgerWriter?

    /** A runner; `existing` is what the ledger file already holds. */
    constructor(
      factProvider: nat -> seq<Fact>,
      evidenceProvider: nat -> seq<EvidenceSet>,
      decisionProvider: (seq<Fact>, seq<EvidenceSet>) -> Decision,
      config: RuntimeConfig,
      traceProvider: Option<nat -> seq<Trace>>,
      existing: seq<Json>)
      ensures this.factProvider == factProvider && this.evidenceProvider == evidenceProvider
      ensures this.decisionProvider == decisionProvider && this.traceProvider == traceProvider
      ensures this.config == config
      ensures ledger != null <==> config.ledgerPath.Some?
      ensures ledger != null ==> fresh(ledger) && ledger.path == config.ledgerPath.value && ledger.records == existing
    {
      this.factProvider := factProvider;
      this.evidenceProvider := evidenceProvider;
      this.decisionProvider := decisionProvider;
      this.traceProvider := traceProvider;
      this.config := config;
      if config.ledgerPath.Some? {
        ledger := new LedgerWriter(config.ledgerPath.value, existing);
      } else {
        ledger := null;
      }
    }

    /** The traces the trace provider gives for tick `i`, or none without a provider. */
    function ProvidedTraces(i: nat): seq<Trace> {
      if traceProvider.Some? then traceProvider.value(i) else []
    }

    /** Tick `i`, with `now` the time of its runtime trace: the providers' facts and evidence
        unchanged, their decision, and the provided traces followed by exactly one runtime trace. */
    function Tick(i: nat, now: Time): (t: RuntimeTick)
      ensures t.facts == factProvider(i) && t.evidence == evidenceProvider(i)
      ensures t.decision == decisionProvider(t.facts, t.evidence)
      ensures |t.traces| == |ProvidedTraces(i)| + 1 && t.traces[..|ProvidedTraces(i)|] == ProvidedTraces(i)
      ensures t.traces[|t.traces| - 1] == TickTrace(config.acteParent, now)
    {
      var facts := factProvider(i);
      var evidence := evidenceProvider(i);
      var decision := decisionProvider(facts, evidence);
      var traces := ProvidedTraces(i) + [TickTrace(config.acteParent, now)];
      RuntimeTick(facts, evidence, decision, traces)
    }

    /** The ledger entry of a tick: the tick's data, the configured parent act, no expression. */
    function EntryOf(t: RuntimeTick, createdAt: Time): (entry: LedgerEntry)
      ensures entry.expression.None? && entry.acteParent == config.acteParent && entry.createdAt == createdAt
      ensures entry.facts == t.facts && entry.evidence == t.evidence
      ensures entry.decision == t.decision && entry.traces == t.traces
    {
      LedgerEntry(config.acteParent, createdAt, t.facts, t.evidence, t.decision, t.traces, None)
    }

    /** The entries a run appends: one per tick, in tick order. */
    function RunEntries(results: seq<RuntimeTick>, entryClock: nat -> Time): (entries: seq<LedgerEntry>)
      ensures |entries| == |results|
      ensures forall i :: 0 <= i < |results| ==> entries[i] == EntryOf(results[i], entryClock(i))
    {
      seq(|results|, i requires 0 <= i < |results| => EntryOf(results[i], entryClock(i)))
    }

    lemma RunEntriesSnoc(results: seq<RuntimeTick>, t: RuntimeTick, entryClock: nat -> Time)
      ensures RunEntries(results + [t], entryClock) == RunEntries(results, entryClock) + [EntryOf(t, entryClock(|results|))]
    {
      var a := RunEntries(results + [t], entryClock);
      var b := RunEntries(results, entryClock) + [EntryOf(t, entryClock(|results|))];
      forall i | 0 <= i < |a|
        ensures a[i] == b[i]
      {
        if i < |results| {
          assert (results + [t])[i] == results[i];
        }
      }
    }

    /** A bounded run of `maxTicks` ticks (none when it is not positive). `traceClock(i)` and
        `entryClock(i)` are the clock reads of the i-th tick's trace and ledger entry. */
    method Run(maxTicks: int, traceClock: nat -> Time, entryClock: nat -> Time) returns (results: seq<RuntimeTick>)
      modifies ledger
      ensures |results| == if maxTicks > 0 then maxTicks else 0
      ensures forall i :: 0 <= i < |results| ==> results[i] == Tick(i, traceClock(i))
      ensures ledger != null ==> ledger.records == old(ledger.records) + Lines(RunEntries(results, entryClock))
    {
      results := [];
      var ticksRemaining := maxTicks;
      while ticksRemaining > 0
        invariant |results| + (if ticksRemaining > 0 then ticksRemaining else 0) == (if maxTicks > 0 then maxTicks else 0)
        invariant forall i :: 0 <= i < |results| ==> results[i] == Tick(i, traceClock(i))
        invariant ledger != null ==> ledger.records == old(ledger.records) + Lines(RunEntries(results, entryClock))
        decreases ticksRemaining
      {
        var i := |results|;
        var result := Tick(i, traceClock(i));
        if ledger != null {
          LogTick(results, result, entryClock, old(ledger.records));
        }
        results := results + [result];
        ticksRemaining := ticksRemaining - 1;
      }
    }

    /** Appends the ledger entry of the tick that follows `results`. */
    method LogTick(results: seq<RuntimeTick>, result: RuntimeTick, entryClock: nat -> Time, ghost base: seq<Json>)
      requires ledger != null && ledger.records == base + Lines(RunEntries(results, entryClock))
      modifies ledger
      ensures ledger.records == base + Lines(RunEntries(results + [result], entryClock))
    {
      var entry := EntryOf(result, entryClock(|results|));
      ledger.Append(entry);
      RunEntriesSnoc(results, result, entryClock);
      LinesSnoc(RunEntries(results, entryClock), entry);
    }
  }

  /** Every record a run appends carries its tick's data and a null expression. */
  lemma {:induction false} RunRecordsCarryTicks(runner: RuntimeRunner, results: seq<RuntimeTick>, entryClock: nat -> Time, i: nat)
    requires i < |results|
    ensures Lines(runner.RunEntries(results, entryClock))[i] == ToRecord(runner.EntryOf(results[i], entryClock(i)))
    ensures var record := Lines(runner.RunEntries(results, entryClock))[i];
      record.JObj? && "expression" in record.fields && record.fields["expression"] == JNull &&
      record.fields["acte_parent"] == JStr(runner.config.acteParent) &&
      |record.fields["facts"].items| == |results[i].facts| &&
      |record.fields["traces"].items| == |results[i].traces|
  {
    RecordShape(runner.EntryOf(results[i], entryClock(i)));
  }
}
