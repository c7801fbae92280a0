/** Values shared by the model: an Option type and parsed JSON documents. */
module Wrappers {

  /** A value that may be absent (Python's `None`). */
  datatype Option<+T> = None | Some(value: T)
}

module JsonValues {

  /** A parsed JSON value. `JObject` is a Python `dict`, `JArray` a `list`. */
  datatype Json =
    | JNull
    | JBool(b: bool)
    | JNum(n: int)
    | JStr(s: string)
    | JArray(items: seq<Json>)
    | JObject(fields: map<string, Json>)

  /** A JSON object, the element type a match predicate is applied to. */
  type Object = map<string, Json>
}
