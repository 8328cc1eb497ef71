/**
 * Values exchanged as JSON: tool-call arguments, the objects tool handlers return
 * and the objects a structured response is deserialised into.
 */
module Json {

  datatype JsonValue =
    | JNull
    | JBool(b: bool)
    | JNumber(n: int)
    | JString(s: string)
    | JArray(items: seq<JsonValue>)
    | JObject(fields: map<string, JsonValue>)

  /**
   * A Java `Class<?>` given as the target of deserialisation; only its
   * `getName()` is observable by the client.
   */
  datatype TypeName = TypeName(name: string)
}
