/** The few JavaScript values and exceptions the registration effect handlers touch. */
module JsValues {

  datatype Option<T> = None | Some(value: T)

  /** A JSON-like JavaScript value. Numbers are kept integral: the handlers only compare
      HTTP status codes, which are integers. */
  datatype Json =
    | JUndefined
    | JNull
    | JBool(b: bool)
    | JNumber(n: int)
    | JString(s: string)
    | JArray(items: seq<Json>)
    | JObject(fields: map<string, Json>)

  /** The HTTP response attached to a failed request: its status and its parsed body. */
  datatype Response = Response(status: int, data: Json)

  /** What a handler can catch: an error raised by the HTTP client, which carries the
      response when the server sent one, or the TypeError of reading a property of
      `undefined` or `null`. */
  datatype Exception =
    | RequestFailed(response: Option<Response>)
    | TypeError
  {
    /** `e.response`, absent when the exception has none. */
    function ResponseOf(): Option<Response>
    {
      if RequestFailed? then response else None
    }
  }

  /** How the evaluation of an expression ends: with a value or by throwing. */
  datatype Completion<T> = Normal(value: T) | Throw(exception: Exception)

  /** The property `key` of a value that can hold properties: the field of an object, and
      `undefined` for a key the value lacks. None of the keys the handlers read is a
      built-in property of strings, numbers, booleans or arrays. */
  function Field(v: Json, key: string): (r: Json)
    ensures r != JUndefined ==> v.JObject? && key in v.fields && v.fields[key] == r
    ensures v.JObject? && key in v.fields ==> r == v.fields[key]
  {
    match v
    case JObject(fields) => if key in fields then fields[key] else JUndefined
    case _ => JUndefined
  }

  /** `v[key]` as JavaScript evaluates it, destructuring included: it throws a TypeError
      exactly when `v` is `undefined` or `null`, and otherwise reads the property. */
  function GetProperty(v: Json, key: string): (c: Completion<Json>)
    ensures c.Throw? <==> v == JUndefined || v == JNull
    ensures c.Throw? ==> c.exception == TypeError
    ensures c.Normal? ==> c.value == Field(v, key)
  {
    if v.JUndefined? || v.JNull? then Throw(TypeError) else Normal(Field(v, key))
  }
}
