/** JSON documents, as the events and the rule extensions carry them. */
module Values {

  /** A JSON value. Numbers are integers; floating point is not modelled. */
  datatype Json =
    | JNull
    | JBool(b: bool)
    | JNumber(n: int)
    | JString(s: string)
    | JArray(items: seq<Json>)
    | JObject(fields: map<string, Json>)
}
