/**
 * The heterogeneous JSON value that an action's `args` map holds
 * (`AnyDecodable`), with its typed projections. A projection answers only on
 * a type match; a mismatch gives `None` instead of failing.
 */
module Json {
  import opened Wrappers

  /** The kinds of value the decoder can produce: Bool, Int, Double, String, object, array, or null for anything else. */
  datatype JsonValue =
    | JNull
    | JBool(b: bool)
    | JInt(i: int)
    | JDouble(d: real)
    | JString(s: string)
    | JObject(fields: map<string, JsonValue>)
    | JArray(items: seq<JsonValue>)

  /** `stringValue`: the text of a JSON string, and nothing for any other kind. */
  function StringValue(v: JsonValue): (r: Option<string>)
    ensures r.Some? <==> v.JString?
    ensures r.Some? ==> v == JString(r.value)
  {
    match v
    case JString(s) => Some(s)
    case _ => None
  }

  /** `boolValue`: the truth value of a JSON boolean, and nothing for any other kind. */
  function BoolValue(v: JsonValue): (r: Option<bool>)
    ensures r.Some? <==> v.JBool?
    ensures r.Some? ==> v == JBool(r.value)
  {
    match v
    case JBool(b) => Some(b)
    case _ => None
  }

  /**
   * `doubleValue`: a number as a Double. A Double is taken as it is and an
   * Int `n` is widened to `n`; every other kind (Bool included) gives nothing.
   */
  function DoubleValue(v: JsonValue): (r: Option<real>)
    ensures r.Some? <==> (v.JDouble? || v.JInt?)
    ensures v.JDouble? ==> r == Some(v.d)
    ensures v.JInt? ==> r == Some(v.i as real)
  {
    match v
    case JDouble(d) => Some(d)
    case JInt(i) => Some(i as real)
    case _ => None
  }
}
