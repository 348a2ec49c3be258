/** Reading an order file of the deployer's inbox: the decoded JSON content becomes an order, a list
    of error codes in a fixed order, and whether the creation time was defaulted. */
module OrderParsing {
  import opened Values
  import opened Json
  import Serialization

  /** The error codes of order parsing. */
  datatype ParseError =
    | InvalidJson
    | InvalidPayload
    | MissingIdentifier
    | MissingScope
    | InvalidCreatedAt
    | InvalidMetadata
    | InvalidConsumedAt
  {
    function Code(): string {
      match this
      case InvalidJson => "invalid_json"
      case InvalidPayload => "invalid_payload"
      case MissingIdentifier => "missing_identifier"
      case MissingScope => "missing_scope"
      case InvalidCreatedAt => "invalid_created_at"
      case InvalidMetadata => "invalid_metadata"
      case InvalidConsumedAt => "invalid_consumed_at"
    }

    /** The position of a field's check in the parser. */
    function Rank(): nat {
      match this
      case InvalidJson => 0
      case InvalidPayload => 0
      case MissingIdentifier => 1
      case MissingScope => 2
      case InvalidCreatedAt => 3
      case InvalidMetadata => 4
      case InvalidConsumedAt => 5
    }
  }

  /** The texts of a list of codes. */
  function Codes(errors: seq<ParseError>): (codes: seq<string>)
    ensures |codes| == |errors|
    ensures forall i :: 0 <= i < |errors| ==> codes[i] == errors[i].Code()
  {
    seq(|errors|, i requires 0 <= i < |errors| => errors[i].Code())
  }

  /** What parsing gives: no order only for unusable content. */
  datatype Parsed = Parsed(order: Option<Order>, errors: seq<ParseError>, defaultedCreatedAt: bool)

  /** `data.get(key) or default` for a field read as text. */
  function TextOr(raw: Json, default: string): (s: string)
    ensures Truthy(raw) ==> s == AsText(raw) && s != ""
    ensures !Truthy(raw) ==> s == default
  {
    if Truthy(raw) then AsText(raw) else default
  }

  /** A timestamp field: a string `fromisoformat` accepts; anything else fails. */
  function TimeOf(raw: Json): Option<Time> {
    if raw.JStr? then FromIsoFormat(raw.s) else None
  }

  datatype CreatedAtField = CreatedAtField(time: Time, errors: seq<ParseError>, defaulted: bool)

  /** `created_at`: a falsy value defaults to `now` without an error; a truthy value that does not
      parse falls back to `now` with an error. */
  function ParseCreatedAt(raw: Json, now: Time): (r: CreatedAtField)
    ensures r.defaulted <==> !Truthy(raw)
    ensures r.errors == [] || r.errors == [InvalidCreatedAt]
    ensures r.errors == [InvalidCreatedAt] <==> Truthy(raw) && TimeOf(raw).None?
    ensures r.errors == [] && !r.defaulted ==> Some(r.time) == TimeOf(raw)
    ensures r.defaulted || r.errors != [] ==> r.time == now
  {
    if !Truthy(raw) then CreatedAtField(now, [], true)
    else if TimeOf(raw).Some? then CreatedAtField(TimeOf(raw).value, [], false)
    else CreatedAtField(now, [InvalidCreatedAt], false)
  }

  /** `metadata`: a falsy value is the empty mapping; a non-object is an error and the empty mapping. */
  function ParseMetadata(raw: Json): (r: (Attrs, seq<ParseError>))
    ensures r.1 == [] || r.1 == [InvalidMetadata]
    ensures r.1 == [InvalidMetadata] <==> Truthy(raw) && !raw.JObj?
    ensures raw.JObj? ==> r.0 == TextAttrs(raw.fields)
    ensures !raw.JObj? ==> r.0 == map[]
  {
    if !Truthy(raw) then (map[], [])
    else if raw.JObj? then (TextAttrs(raw.fields), [])
    else (map[], [InvalidMetadata])
  }

  /** `consumed_at`: absent or falsy is None; a truthy value that does not parse is an error and
      stays None. */
  function ParseConsumedAt(raw: Json): (r: (Option<Time>, seq<ParseError>))
    ensures r.1 == [] || r.1 == [InvalidConsumedAt]
    ensures r.1 == [InvalidConsumedAt] <==> Truthy(raw) && TimeOf(raw).None?
    ensures r.0.Some? <==> Truthy(raw) && TimeOf(raw).Some?
    ensures r.0.Some? ==> r.0 == TimeOf(raw)
  {
    if !Truthy(raw) then (None, [])
    else if TimeOf(raw).Some? then (TimeOf(raw), [])
    else (None, [InvalidConsumedAt])
  }

  function PresenceErrors(raw: Json, error: ParseError): (r: seq<ParseError>)
    ensures r == [] <==> Truthy(raw)
    ensures r != [] ==> r == [error]
  {
    if Truthy(raw) then [] else [error]
  }

  /** What `json.loads(path.read_text(encoding="utf-8"))` gives for an order file: the decoded
      value; an error the parser catches (an OSError, or text that is not JSON, a JSONDecodeError);
      or any other read error, which it does not catch: bytes that are not UTF-8
      (UnicodeDecodeError), an integer literal past the 4300-digit limit of Python 3.12 (a plain
      ValueError), or nesting past the interpreter's recursion limit (RecursionError). */
  datatype Load = Loaded(json: Json) | Unreadable | Undecodable

  /** The content a parse that catches every read error works on: None for a file whose value
      could not be obtained. */
  function Content(load: Load): (content: Option<Json>)
    ensures content.Some? <==> load.Loaded?
    ensures load.Loaded? ==> content.value == load.json
  {
    if load.Loaded? then Some(load.json) else None
  }

  /** `_parse_order` as written: it raises, rather than returning a parse, exactly for an
      Undecodable file (any read error other than JSONDecodeError or OSError), because its handler
      catches those two only. Every other
      file gets the parse of its content. */
  function ParseAsWritten(load: Load, now: Time): (r: Option<Parsed>)
    ensures r.None? <==> load.Undecodable?
    ensures r.Some? ==> r.value == ParsedOrder(Content(load), now)
  {
    if load.Undecodable? then None else Some(ParsedOrder(Content(load), now))
  }

  /** The parse of a decoded order file; None content, for a file that could not be read or
      decoded, is reported as invalid JSON. */
  function ParsedOrder(content: Option<Json>, now: Time): (p: Parsed)
    ensures content.None? ==> p == Parsed(None, [InvalidJson], false)
    ensures content.Some? && !content.value.JObj? ==> p == Parsed(None, [InvalidPayload], false)
    ensures content.Some? && content.value.JObj? ==> p.order.Some?
  {
    if content.None? then Parsed(None, [InvalidJson], false)
    else if !content.value.JObj? then Parsed(None, [InvalidPayload], false)
    else
      var data := content.value.fields;
      var createdAt := ParseCreatedAt(Get(data, "created_at"), now);
      var metadata := ParseMetadata(Get(data, "metadata"));
      var consumedAt := ParseConsumedAt(Get(data, "consumed_at"));
      var order := Order(
        TextOr(Get(data, "identifier"), "unknown"),
        TextOr(Get(data, "scope"), "unknown"),
        createdAt.time,
        TextOr(Get(data, "acte_parent"), ACTE_IV),
        consumedAt.0,
        metadata.0);
      var errors := PresenceErrors(Get(data, "identifier"), MissingIdentifier) +
                    PresenceErrors(Get(data, "scope"), MissingScope) +
                    createdAt.errors + metadata.1 + consumedAt.1;
      Parsed(Some(order), errors, createdAt.defaulted)
  }

  /** `_parse_order`, which accumulates its errors step by step. */
  method ParseOrder(content: Option<Json>, now: Time) returns (order: Option<Order>, errors: seq<ParseError>, defaulted: bool)
    ensures Parsed(order, errors, defaulted) == ParsedOrder(content, now)
  {
    if content.None? {
      return None, [InvalidJson], false;
    }
    if !content.value.JObj? {
      return None, [InvalidPayload], false;
    }
    var data := content.value.fields;
    errors := [];
    var identifier := TextOr(Get(data, "identifier"), "unknown");
    var scope := TextOr(Get(data, "scope"), "unknown");
    if !Truthy(Get(data, "identifier")) {
      errors := errors + [MissingIdentifier];
    }
    if !Truthy(Get(data, "scope")) {
      errors := errors + [MissingScope];
    }
    var presence := errors;

    var createdAtRaw := Get(data, "created_at");
    defaulted := false;
    var createdAt: Time;
    if Truthy(createdAtRaw) {
      var parsed := TimeOf(createdAtRaw);
      if parsed.Some? {
        createdAt := parsed.value;
      } else {
        createdAt := now;
        errors := errors + [InvalidCreatedAt];
      }
    } else {
      createdAt := now;
      defaulted := true;
    }
    var afterCreatedAt := errors;

    var acteParent := TextOr(Get(data, "acte_parent"), ACTE_IV);
    var metadataRaw := Get(data, "metadata");
    var metadata: Attrs := map[];
    if Truthy(metadataRaw) {
      if metadataRaw.JObj? {
        metadata := TextAttrs(metadataRaw.fields);
      } else {
        errors := errors + [InvalidMetadata];
      }
    }
    var afterMetadata := errors;

    var consumedAt: Option<Time> := None;
    var consumedAtRaw := Get(data, "consumed_at");
    if Truthy(consumedAtRaw) {
      var parsed := TimeOf(consumedAtRaw);
      if parsed.Some? {
        consumedAt := parsed;
      } else {
        errors := errors + [InvalidConsumedAt];
      }
    }

    order := Some(Order(identifier, scope, createdAt, acteParent, consumedAt, metadata));
    assert presence == PresenceErrors(Get(data, "identifier"), MissingIdentifier) + PresenceErrors(Get(data, "scope"), MissingScope);
    assert afterCreatedAt == presence + ParseCreatedAt(createdAtRaw, now).errors;
    assert afterMetadata == afterCreatedAt + ParseMetadata(metadataRaw).1;
    assert errors == afterMetadata + ParseConsumedAt(consumedAtRaw).1;
  }

  // ------------------------------------------------------------------
  // Properties of the parse
  // ------------------------------------------------------------------

  /** No order comes back exactly for unusable content, and never without an error. */
  lemma NoOrderOnlyWithErrors(content: Option<Json>, now: Time)
    ensures var p := ParsedOrder(content, now);
      (p.order.None? <==> content.None? || !content.value.JObj?) &&
      (p.order.None? ==> p.errors != [] && !p.defaultedCreatedAt)
  {
  }

  /** A missing or falsy identifier or scope is reported and replaced by "unknown"; a present one is
      kept. */
  lemma IdentifierAndScopeRules(fields: map<string, Json>, now: Time)
    ensures var p := ParsedOrder(Some(JObj(fields)), now);
      var id := Get(fields, "identifier");
      var scope := Get(fields, "scope");
      p.order.Some? &&
      (MissingIdentifier in p.errors <==> !Truthy(id)) &&
      (MissingScope in p.errors <==> !Truthy(scope)) &&
      p.order.value.identifier == (if Truthy(id) then AsText(id) else "unknown") &&
      p.order.value.scope == (if Truthy(scope) then AsText(scope) else "unknown")
  {
  }

  /** An absent creation time defaults to `now` without an error; an unparsable one also falls back
      to `now`, but is an error and is not marked defaulted. */
  lemma CreatedAtRules(fields: map<string, Json>, now: Time)
    ensures var p := ParsedOrder(Some(JObj(fields)), now);
      var raw := Get(fields, "created_at");
      p.order.Some? &&
      (p.defaultedCreatedAt <==> !Truthy(raw)) &&
      (InvalidCreatedAt in p.errors <==> Truthy(raw) && TimeOf(raw).None?) &&
      (p.defaultedCreatedAt || InvalidCreatedAt in p.errors ==> p.order.value.createdAt == now)
  {
  }

  /** The parent act defaults to ACTE_IV; non-object metadata is an error and becomes empty; an
      unparsable consumption time is an error and leaves the order unconsumed. */
  lemma RemainingDefaults(fields: map<string, Json>, now: Time)
    ensures var p := ParsedOrder(Some(JObj(fields)), now);
      p.order.Some? &&
      (!Truthy(Get(fields, "acte_parent")) ==> p.order.value.acteParent == ACTE_IV) &&
      (InvalidMetadata in p.errors <==> Truthy(Get(fields, "metadata")) && !Get(fields, "metadata").JObj?) &&
      (InvalidMetadata in p.errors ==> p.order.value.metadata == map[]) &&
      (InvalidConsumedAt in p.errors <==> Truthy(Get(fields, "consumed_at")) && TimeOf(Get(fields, "consumed_at")).None?) &&
      (InvalidConsumedAt in p.errors ==> p.order.value.consumedAt.None?)
  {
  }

  /** The errors come in the parser's field order, each at most once. */
  lemma {:induction false} ErrorsOrdered(content: Option<Json>, now: Time)
    ensures var errors := ParsedOrder(content, now).errors;
      forall i, j :: 0 <= i < j < |errors| ==> errors[i].Rank() < errors[j].Rank()
  {
    if content.Some? && content.value.JObj? {
      var data := content.value.fields;
      var a := PresenceErrors(Get(data, "identifier"), MissingIdentifier);
      var b := PresenceErrors(Get(data, "scope"), MissingScope);
      var c := ParseCreatedAt(Get(data, "created_at"), now).errors;
      var d := ParseMetadata(Get(data, "metadata")).1;
      var e := ParseConsumedAt(Get(data, "consumed_at")).1;
      assert ParsedOrder(content, now).errors == a + b + c + d + e;
      AppendRanked([], a, 1);
      AppendRanked(a, b, 2);
      AppendRanked(a + b, c, 3);
      AppendRanked(a + b + c, d, 4);
      AppendRanked(a + b + c + d, e, 5);
    }
  }

  /** Appending at most one error of rank `r` to errors all ranked below `r` keeps the ranks
      strictly increasing. */
  lemma AppendRanked(errors: seq<ParseError>, more: seq<ParseError>, r: nat)
    requires forall i, j :: 0 <= i < j < |errors| ==> errors[i].Rank() < errors[j].Rank()
    requires forall i :: 0 <= i < |errors| ==> errors[i].Rank() < r
    requires more == [] || (|more| == 1 && more[0].Rank() == r)
    ensures var all := errors + more;
      (forall i, j :: 0 <= i < j < |all| ==> all[i].Rank() < all[j].Rank()) &&
      (forall i :: 0 <= i < |all| ==> all[i].Rank() < r + 1)
  {
  }

  /** The clock only supplies the defaulted creation time: errors, the defaulted flag and every other
      field do not depend on it. */
  lemma ClockOnlyFillsCreatedAt(content: Option<Json>, now1: Time, now2: Time)
    ensures var p1 := ParsedOrder(content, now1);
      var p2 := ParsedOrder(content, now2);
      p1.errors == p2.errors && p1.defaultedCreatedAt == p2.defaultedCreatedAt &&
      p1.order.Some? == p2.order.Some? &&
      (p1.order.Some? ==> p1.order.value.(createdAt := 0) == p2.order.value.(createdAt := 0))
  {
  }

  /** An order written as its JSON record reads back as itself, with no error and no default, when
      its identifier, scope and parent act are not empty. */
  lemma {:induction false} SerializedOrderParsesBack(order: Order, now: Time)
    requires order.identifier != "" && order.scope != "" && order.acteParent != ""
    ensures ParsedOrder(Some(Serialization.SerializeOrder(order)), now) == Parsed(Some(order), [], false)
  {
    var j := Serialization.SerializeOrder(order);
    var data := j.fields;
    assert data == Serialization.OrderFields(order);
    IsoRoundTrip(order.createdAt);
    assert Get(data, "created_at") == JStr(IsoFormat(order.createdAt));
    var created := ParseCreatedAt(Get(data, "created_at"), now);
    assert created == CreatedAtField(order.createdAt, [], false);
    if order.consumedAt.Some? {
      IsoRoundTrip(order.consumedAt.value);
    }
    assert ParseConsumedAt(Get(data, "consumed_at")) == (order.consumedAt, []);
    TextAttrsOfAttrsJson(order.metadata);
    assert ParseMetadata(Get(data, "metadata")) == (order.metadata, []);
  }
}
