/** The JavaScript values the pitch code handles: an optional value, the JSON
    values `JSON.parse` produces, property reads and the `||` defaulting idiom. */
module JsValues {

  /** A value that may be absent (`undefined` / `null` in the source). */
  datatype Option<+T> = None | Some(value: T)

  /** A JSON value in the sense of RFC 8259. Numbers keep their lexeme: nothing
      in the model does arithmetic on them. */
  datatype Json =
    | JNull
    | JBool(b: bool)
    | JNumber(lexeme: string)
    | JString(s: string)
    | JArray(items: seq<Json>)
    | JObject(members: map<string, Json>)

  /** `JSON.parse` is foreign code: the model takes it as a parameter.
      `None` stands for the `SyntaxError` it throws. */
  type JsonParser = string -> Option<Json>

  /** Reads property `key` of `v` when it holds a string; every other case
      (not an object, key missing, value not a string) reads as missing. */
  function StringField(v: Json, key: string): (r: Option<string>)
    ensures r.Some? <==> v.JObject? && key in v.members && v.members[key].JString?
    ensures r.Some? ==> v.members[key] == JString(r.value)
  {
    if v.JObject? && key in v.members then
      match v.members[key]
      case JString(s) => Some(s)
      case _ => None
    else None
  }

  /** JavaScript's `field || fallback` on a string-or-missing value: the empty
      string and a missing value are falsy, every other string is kept. */
  function Or(field: Option<string>, fallback: string): (r: string)
    ensures field.Some? && field.value != "" ==> r == field.value
    ensures field == None || field == Some("") ==> r == fallback
    ensures fallback != "" ==> r != ""
  {
    match field
    case Some(s) => if s != "" then s else fallback
    case None => fallback
  }
}
