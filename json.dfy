/**
 * JSON values as the service sees them: the value `json.loads` produces
 * from the provider's reply, the list the fallback builds, and the
 * payloads `jsonify` sends back.
 */
module Json {

  /** A JSON value. Objects are maps, so key order is not represented. */
  datatype Json =
    | JNull
    | JBool(b: bool)
    | JNumber(n: int)
    | JString(s: string)
    | JArray(items: seq<Json>)
    | JObject(fields: map<string, Json>)

  /**
   * What the guarded block of the analysis function yields: the parsed
   * reply of the remote generation call, or the text of the exception
   * raised by the call or by the parse.
   */
  datatype Outcome = Parsed(value: Json) | Failed(msg: string)
}
