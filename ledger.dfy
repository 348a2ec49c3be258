/** The runner's append-only ledger: each entry becomes one JSON record, and the log only ever
    grows by one record per append. */
module Ledger {
  import opened Values
  import opened Json
  import opened Serialization

  /** One ledger entry; the expression is optional. */
  datatype LedgerEntry = LedgerEntry(
    acteParent: string,
    createdAt: Time,
    facts: seq<Fact>,
    evidence: seq<EvidenceSet>,
    decision: Decision,
    traces: seq<Trace>,
    expression: Option<AuthorityExpression>)

  /** A decision record: its summary and its facts in order. */
  function SerializeDecision(decision: Decision): (j: Json)
    ensures j.JObj? && j.fields.Keys == {"summary", "facts"}
    ensures j.fields["summary"] == JStr(decision.summary)
    ensures j.fields["facts"] == Facts(decision.facts)
  {
    JObj(map["summary" := JStr(decision.summary), "facts" := Facts(decision.facts)])
  }

  /** An optional expression: null when absent, the tagged record otherwise. */
  function SerializeOptionalExpression(expression: Option<AuthorityExpression>): (j: Json)
    ensures j == JNull <==> expression.None?
    ensures expression.Some? ==> j == SerializeExpression(expression.value)
  {
    match expression
    case None => JNull
    case Some(e) => SerializeExpression(e)
  }

  /** The record of an entry, as `to_record` builds it. */
  function ToRecord(entry: LedgerEntry): Json {
    JObj(map[
      "acte_parent" := JStr(entry.acteParent),
      "created_at" := JStr(IsoFormat(entry.createdAt)),
      "facts" := Facts(entry.facts),
      "evidence" := JList(entry.evidence, SerializeEvidenceSet),
      "decision" := SerializeDecision(entry.decision),
      "traces" := Traces(entry.traces),
      "expression" := SerializeOptionalExpression(entry.expression)])
  }

  /** A record has exactly the seven fields of an entry; the lists keep their length and order, and
      the expression is null exactly when the entry has none. */
  lemma RecordShape(entry: LedgerEntry)
    ensures var j := ToRecord(entry);
      j.JObj? && j.fields.Keys == {"acte_parent", "created_at", "facts", "evidence", "decision", "traces", "expression"} &&
      j.fields["acte_parent"] == JStr(entry.acteParent) &&
      j.fields["created_at"] == JStr(IsoFormat(entry.createdAt)) &&
      j.fields["facts"].JArr? && |j.fields["facts"].items| == |entry.facts| &&
      (forall i :: 0 <= i < |entry.facts| ==> j.fields["facts"].items[i] == SerializeFact(entry.facts[i])) &&
      j.fields["evidence"].JArr? && |j.fields["evidence"].items| == |entry.evidence| &&
      (forall i :: 0 <= i < |entry.evidence| ==> j.fields["evidence"].items[i] == SerializeEvidenceSet(entry.evidence[i])) &&
      j.fields["traces"].JArr? && |j.fields["traces"].items| == |entry.traces| &&
      (forall i :: 0 <= i < |entry.traces| ==> j.fields["traces"].items[i] == SerializeTrace(entry.traces[i])) &&
      j.fields["decision"] == SerializeDecision(entry.decision) &&
      j.fields["expression"] == SerializeOptionalExpression(entry.expression)
  {
  }

  /** The expression of an entry can be read back from its record. */
  lemma {:induction false} RecordExpressionReadsBack(entry: LedgerEntry)
    requires entry.expression.Some?
    ensures "expression" in ToRecord(entry).fields
    ensures ExpressionFromJson(ToRecord(entry).fields["expression"]) == entry.expression
  {
    RecordShape(entry);
    ExpressionRoundTrip(entry.expression.value);
  }

  /** The lines a sequence of entries adds to the log: one record per entry, in order. */
  function Lines(entries: seq<LedgerEntry>): (lines: seq<Json>)
    ensures |lines| == |entries|
    ensures forall i :: 0 <= i < |entries| ==> lines[i] == ToRecord(entries[i])
  {
    seq(|entries|, i requires 0 <= i < |entries| => ToRecord(entries[i]))
  }

  /** One more entry adds exactly its record at the end. */
  lemma LinesSnoc(entries: seq<LedgerEntry>, entry: LedgerEntry)
    ensures Lines(entries + [entry]) == Lines(entries) + [ToRecord(entry)]
  {
    var a := Lines(entries + [entry]);
    var b := Lines(entries) + [ToRecord(entry)];
    forall i | 0 <= i < |a|
      ensures a[i] == b[i]
    {
      if i < |entries| {
        assert (entries + [entry])[i] == entries[i];
      }
    }
  }

  /** The log file, as the sequence of records written to it, one per line. */
  class LedgerWriter {
    const path: string
    var records: seq<Json>

    /** A writer on a file that already holds `existing`. */
    constructor(path: string, existing: seq<Json>)
      ensures this.path == path && records == existing
    {
      this.path := path;
      records := existing;
    }

    /** Appends exactly one record; what was there stays an unchanged prefix. */
    method Append(entry: LedgerEntry)
      modifies this
      ensures records == old(records) + [ToRecord(entry)]
      ensures records[..|old(records)|] == old(records)
    {
      records := records + [ToRecord(entry)];
    }
  }
}
