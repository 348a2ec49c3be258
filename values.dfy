/** The shared value model of the governance pipeline: optional values, timestamps and their text
    form, the immutable records (facts, traces, evidence, decisions, orders) and the three terminal
    authority expressions, with the enumerations the core files share. */
module Values {

  datatype Option<+T> = None | Some(value: T)

  /** A timestamp, as a count of seconds; wall-clock reads are parameters of the operations. */
  type Time = nat

  /** A string-to-string mapping, as carried by facts, traces and expressions. */
  type Attrs = map<string, string>

  /** The parent-act tag every expression carries by default. */
  const ACTE_IV := "ACTE_IV"

  // ------------------------------------------------------------------
  // Decimal text of numbers: the text form of timestamps and of `str(int)`
  // ------------------------------------------------------------------

  predicate IsDigit(c: char) { '0' <= c <= '9' }

  function DigitChar(d: nat): (c: char)
    requires d < 10
    ensures IsDigit(c) && DigitValue(c) == d
  {
    ('0' as int + d) as char
  }

  function DigitValue(c: char): nat
    requires IsDigit(c)
  {
    c as int - '0' as int
  }

  predicate AllDigits(s: string) {
    forall i :: 0 <= i < |s| ==> IsDigit(s[i])
  }

  /** The decimal representation of `n`, most significant digit first, without leading zeros. */
  function NatText(n: nat): (s: string)
    ensures |s| >= 1 && AllDigits(s)
    decreases n
  {
    if n < 10 then [DigitChar(n)] else NatText(n / 10) + [DigitChar(n % 10)]
  }

  /** Reads a non-empty string of decimal digits; anything else is rejected. */
  function ParseNat(s: string): (r: Option<nat>)
    ensures r.Some? <==> |s| >= 1 && AllDigits(s)
    decreases |s|
  {
    if s == [] || !IsDigit(s[|s| - 1]) then None
    else if |s| == 1 then Some(DigitValue(s[0]))
    else match ParseNat(s[..|s| - 1])
      case None => None
      case Some(v) => Some(10 * v + DigitValue(s[|s| - 1]))
  }

  /** Reading back the text of a number gives the number. */
  lemma {:induction false} ParseNatText(n: nat)
    ensures ParseNat(NatText(n)) == Some(n)
  {
    if n >= 10 {
      var s := NatText(n);
      assert s[..|s| - 1] == NatText(n / 10);
      ParseNatText(n / 10);
    }
  }

  /** `str(n)` for a Python integer: a minus sign before the digits of a negative number. */
  function IntText(n: int): (s: string)
    ensures |s| >= 1
    ensures n < 0 <==> s[0] == '-'
  {
    if n < 0 then "-" + NatText(-n) else NatText(n)
  }

  /** The text form of a timestamp (the model's stand-in for `datetime.isoformat`). */
  function IsoFormat(t: Time): string {
    NatText(t)
  }

  /** The partial parse paired with IsoFormat (the stand-in for `datetime.fromisoformat`). */
  function FromIsoFormat(s: string): Option<Time> {
    ParseNat(s)
  }

  /** The two time conversions round-trip. */
  lemma IsoRoundTrip(t: Time)
    ensures FromIsoFormat(IsoFormat(t)) == Some(t)
  {
    ParseNatText(t);
  }

  /** `sep.join(parts)`. */
  function Join(parts: seq<string>, sep: string): (s: string)
    ensures parts == [] ==> s == ""
    ensures |parts| == 1 ==> s == parts[0]
  {
    if parts == [] then ""
    else if |parts| == 1 then parts[0]
    else parts[0] + sep + Join(parts[1..], sep)
  }

  /** A joined list whose first part is non-empty is non-empty. */
  lemma JoinNonEmpty(parts: seq<string>, sep: string)
    requires parts != [] && parts[0] != ""
    ensures Join(parts, sep) != ""
  {
  }

  /** `str.lower()` on ASCII letters; other characters are kept. */
  function Lower(s: string): (r: string)
    ensures |r| == |s|
  {
    seq(|s|, i requires 0 <= i < |s| => if 'A' <= s[i] <= 'Z' then (s[i] as int + 32) as char else s[i])
  }

  // ------------------------------------------------------------------
  // Records
  // ------------------------------------------------------------------

  /** An uninterpreted observation. */
  datatype Fact = Fact(description: string, attributes: Attrs)

  /** A timestamped footprint of an act. */
  datatype Trace = Trace(timestamp: Time, actor: string, metadata: Attrs)

  datatype EvidencePrimary = EvidencePrimary(description: string)

  datatype EvidenceSecondary = EvidenceSecondary(description: string)

  /** Exactly one primary item with zero or more secondary items. */
  datatype EvidenceSet = EvidenceSet(primary: EvidencePrimary, secondary: seq<EvidenceSecondary>)

  datatype Decision = Decision(summary: string, facts: seq<Fact>)

  /** A one-shot instruction; `consumedAt` is None until the order is consumed. */
  datatype Order = Order(
    identifier: string,
    scope: string,
    createdAt: Time,
    acteParent: string,
    consumedAt: Option<Time>,
    metadata: Attrs)

  /** The three terminal expressions. */
  datatype AuthorityExpression =
    | OrderExpression(order: Order)
    | Refusal(reason: string, createdAt: Time, metadata: Attrs, acteParent: string)
    | Silence(reason: string, createdAt: Time, metadata: Attrs, acteParent: string)

  /** The expression kinds a decision can resolve to. */
  datatype ActeIVExpression = ORDER | REFUS | SILENCE {
    function Value(): string {
      match this
      case ORDER => "order"
      case REFUS => "refus"
      case SILENCE => "silence"
    }
  }

  /** The kind of a concrete expression. */
  function KindOf(e: AuthorityExpression): ActeIVExpression {
    match e
    case OrderExpression(_) => ORDER
    case Refusal(_, _, _, _) => REFUS
    case Silence(_, _, _, _) => SILENCE
  }

  // ------------------------------------------------------------------
  // Enumerations
  // ------------------------------------------------------------------

  datatype AuthorityLevel = ONTOLOGICAL | OPERATIONAL | EXECUTIVE | EXPOSURE

  datatype EngineState = UP | DEGRADED | FAILED | UNKNOWN

  datatype AppState = APP_UP | APP_DOWN | APP_FAILED | APP_UNKNOWN

  datatype DeployState = DEPLOY_APPLIED | DEPLOY_REJECTED | DEPLOY_FAILED | DEPLOY_UNKNOWN {
    function Value(): string {
      match this
      case DEPLOY_APPLIED => "APPLIED"
      case DEPLOY_REJECTED => "REJECTED"
      case DEPLOY_FAILED => "FAILED"
      case DEPLOY_UNKNOWN => "UNKNOWN"
    }
  }

  datatype IntegrationState = AVAILABLE | UNAVAILABLE | UNSTABLE | INTEGRATION_UNKNOWN
}
