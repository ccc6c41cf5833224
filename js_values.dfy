/** The JavaScript values that flow between the tool registry and the run poller. */
module JsValues {

  /** JSON-like values: what `JSON.parse` yields and what tool handlers return.
      Numbers are integers here; see README for what that leaves out. */
  datatype Json =
    | JNull
    | JBool(b: bool)
    | JNumber(n: int)
    | JString(s: string)
    | JArray(items: seq<Json>)
    | JObject(members: seq<(string, Json)>)

  /** The object literal `{}`. */
  const EmptyObject: Json := JObject([])

  /** JavaScript truthiness: `null`, `false`, `0` and `""` are falsy, everything else is truthy. */
  predicate Truthy(v: Json)
  {
    match v
    case JNull => false
    case JBool(b) => b
    case JNumber(n) => n != 0
    case JString(s) => s != ""
    case JArray(_) => true
    case JObject(_) => true
  }

  /** What awaiting a tool handler gives: its output, or the exception it threw. */
  datatype HandlerResult = Resolved(output: Json) | Rejected(reason: string)

  /** A tool handler: an opaque function from decoded arguments to a settled promise. */
  type Handler = Json -> HandlerResult
}
