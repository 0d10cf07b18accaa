/**
 * The already-parsed JSON tree the decoders walk (a Newtonsoft JToken), the
 * property lookup they use (SelectToken with a plain property name) and the
 * text a token turns into (JToken.ToString()).
 */
module JsonTree {
  import opened Wrappers
  import opened Decimal

  /** A JSON token. Object members are keyed by name; a number without a
      fraction or exponent is an integer token, any other number keeps its text. */
  datatype Json =
    | JNull
    | JBool(b: bool)
    | JInteger(n: int)
    | JFloat(text: string)
    | JString(s: string)
    | JArray(items: seq<Json>)
    | JObject(fields: map<string, Json>)

  /** SelectToken(key): the member's value on an object; nothing on any other
      token, and nothing when the object has no such member. */
  function Lookup(j: Json, key: string): (r: Option<Json>)
    ensures r.Some? <==> j.JObject? && key in j.fields
    ensures r.Some? ==> r.value == j.fields[key]
  {
    if j.JObject? && key in j.fields then Some(j.fields[key]) else None
  }

  /** The token with the member `key` removed (other tokens are returned as they are). */
  function Without(j: Json, key: string): (r: Json)
    ensures Lookup(r, key).None?
    ensures forall other :: other != key ==> Lookup(r, other) == Lookup(j, other)
  {
    if j.JObject? then JObject(j.fields - {key}) else j
  }

  /** The object with the member `key` set to `v`. */
  function With(j: Json, key: string, v: Json): (r: Json)
    requires j.JObject?
    ensures Lookup(r, key) == Some(v)
    ensures forall other :: other != key ==> Lookup(r, other) == Lookup(j, other)
  {
    JObject(j.fields[key := v])
  }

  /** JToken.ToString() of a token: a string's own characters, "" for null,
      "True"/"False" for booleans, decimal digits for integers, a float's text.
      Arrays and objects get a fixed stand-in text: their rendering is not modelled. */
  function TokenText(j: Json): (r: string)
    ensures j.JString? ==> r == j.s
    ensures j.JNull? ==> r == ""
    ensures j.JInteger? ==> IntegerValue(r) == Some(j.n)
    ensures j.JBool? ==> r == if j.b then "True" else "False"
  {
    match j
    case JNull => ""
    case JBool(b) => if b then "True" else "False"
    case JInteger(n) => DecimalRoundTrip(n); DecimalText(n)
    case JFloat(t) => t
    case JString(s) => s
    case JArray(_) => "[...]"
    case JObject(_) => "{...}"
  }
}
