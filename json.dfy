/** The JSON values exchanged with the upstream service and with HTTP clients. */
module JsonValues {

  /** A parsed JSON document. Numbers are integers in this model. */
  datatype Json =
    | JNull
    | JBool(b: bool)
    | JNumber(n: int)
    | JString(s: string)
    | JArray(items: seq<Json>)
    | JObject(members: map<string, Json>)

  /** A JavaScript value as it flows through the proxy: either JSON or `undefined`
      (what a property access yields when the property is absent). */
  datatype Value = Undefined | Defined(json: Json)
}
