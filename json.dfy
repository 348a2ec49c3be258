/** JSON documents as values: what `json.loads` produces and what the serialisers hand to
    `json.dumps`. The text encoding itself is not part of this model. */
module Json {
  import opened Values

  /** A JSON value; objects are unordered key-to-value maps. */
  datatype Json =
    | JNull
    | JBool(b: bool)
    | JNum(n: int)
    | JStr(s: string)
    | JArr(items: seq<Json>)
    | JObj(fields: map<string, Json>)

  /** Python truthiness of a decoded JSON value. */
  predicate Truthy(j: Json) {
    match j
    case JNull => false
    case JBool(b) => b
    case JNum(n) => n != 0
    case JStr(s) => s != ""
    case JArr(items) => items != []
    case JObj(fields) => fields != map[]
  }

  /** `data.get(key)` on a decoded object: JNull when the key is absent. */
  function Get(fields: map<string, Json>, key: string): (j: Json)
    ensures key !in fields ==> j == JNull
  {
    if key in fields then fields[key] else JNull
  }

  /** The stand-in text for a truthy JSON value that is not a string, where the source keeps such a
      value in a field it otherwise treats as a string. */
  const NON_STRING := "<non-string>"

  /** A decoded value kept in a string field: strings as they are, falsy values as the empty
      string, other values as NON_STRING. Emptiness follows truthiness. */
  function AsText(j: Json): (s: string)
    ensures s != "" <==> Truthy(j)
    ensures j.JStr? ==> s == j.s
    ensures !j.JStr? ==> s == "" || s == NON_STRING
  {
    match j
    case JStr(s) => s
    case _ => if Truthy(j) then NON_STRING else ""
  }

  /** A string-to-string mapping as a JSON object. */
  function AttrsJson(m: Attrs): (j: Json)
    ensures j.JObj? && j.fields.Keys == m.Keys
    ensures forall k :: k in m ==> j.fields[k] == JStr(m[k])
  {
    JObj(map k | k in m :: JStr(m[k]))
  }

  /** A decoded object kept as a string-to-string mapping, each value read with AsText. */
  function TextAttrs(fields: map<string, Json>): (m: Attrs)
    ensures m.Keys == fields.Keys
    ensures forall k :: k in fields ==> m[k] == AsText(fields[k])
  {
    map k | k in fields :: AsText(fields[k])
  }

  /** Reading back an encoded mapping gives the mapping. */
  lemma TextAttrsOfAttrsJson(m: Attrs)
    ensures TextAttrs(AttrsJson(m).fields) == m
  {
    var back := TextAttrs(AttrsJson(m).fields);
    assert back.Keys == m.Keys;
    forall k | k in m
      ensures back[k] == m[k]
    {
    }
  }

  /** An optional string as a JSON string or null. */
  function OptionalText(o: Option<string>): (j: Json)
    ensures j == JNull <==> o.None?
    ensures o.Some? ==> j == JStr(o.value)
  {
    match o
    case None => JNull
    case Some(s) => JStr(s)
  }
}
