/** The dynamically typed values a page script produces and the step model (`JSON`) that steps pass on. */
module Json {

  /** A value held in the model or answered by a script. Numbers are limited to integers. */
  datatype JsonValue =
    | JNull
    | JBool(b: bool)
    | JNumber(n: int)
    | JString(s: string)
    | JArray(items: seq<JsonValue>)
    | JObject(fields: map<string, JsonValue>)

  /** The step model: `[String: Any]` in the library. */
  type Model = map<string, JsonValue>
}
