/** The JSON values `JSON.parse` can return, with the two JavaScript
    operations the modelled code applies to them: truthiness tests
    (`if (!x)`, `x || d`) and conversion to a string (`String(x)`,
    template literals). Parsing itself is not modelled: callers receive
    it as a function parameter. */
module Json {
  import opened Wrappers
  import opened JsText

  /** Numbers are integers here; fractional and exponent numbers are not modelled. */
  datatype Json =
    | JNull
    | JBool(b: bool)
    | JNumber(n: int)
    | JString(s: string)
    | JArray(items: seq<Json>)
    | JObject(fields: map<string, Json>)

  /** What `JSON.parse` yields for text that starts with `{` and ends with `}`. */
  type JsonObject = map<string, Json>

  /** `obj.key`: the property, or `undefined` (None) when it is absent. */
  function Member(obj: JsonObject, key: string): Option<Json> {
    if key in obj then Some(obj[key]) else None
  }

  /** `v.key` on any JSON value: only objects have properties of their own
      (the keys read in this model are not inherited from a prototype). */
  function Property(v: Json, key: string): Option<Json> {
    if v.JObject? then Member(v.fields, key) else None
  }

  /** JavaScript truthiness; None is `undefined`. */
  predicate Truthy(v: Option<Json>)
    ensures Truthy(v) ==> v.Some? && !v.value.JNull?
  {
    match v
    case None => false
    case Some(JNull) => false
    case Some(JBool(b)) => b
    case Some(JNumber(n)) => n != 0
    case Some(JString(s)) => s != ""
    case Some(JArray(_)) => true
    case Some(JObject(_)) => true
  }

  /** `String(v)`. An array renders as its elements joined with ","
      (a null element as the empty string); an object as "[object Object]". */
  function ToJsString(v: Json): string {
    match v
    case JNull => "null"
    case JBool(b) => if b then "true" else "false"
    case JNumber(n) => IntToString(n)
    case JString(s) => s
    case JArray(items) =>
      Join(seq(|items|, i requires 0 <= i < |items| =>
                 if items[i].JNull? then "" else ToJsString(items[i])), ",")
    case JObject(_) => "[object Object]"
  }
}
