/** JSON values as both the TypeScript and the Python handlers see them, and a JSON HTTP response. */
module Json {

  /** A decoded JSON value. Numbers are integers only; fractional numbers are not modelled. */
  datatype Json =
    | JNull
    | JBool(b: bool)
    | JNumber(n: int)
    | JString(s: string)
    | JArray(items: seq<Json>)
    | JObject(fields: map<string, Json>)

  /** An HTTP response whose body is JSON: what `NextResponse.json` and the Python handler write. */
  datatype JsonResponse = JsonResponse(status: int, body: Json)

  /** Python truthiness of a decoded JSON value (`not value` is its negation). */
  predicate Truthy(v: Json) {
    match v
    case JNull => false
    case JBool(b) => b
    case JNumber(n) => n != 0
    case JString(s) => s != ""
    case JArray(items) => items != []
    case JObject(fields) => fields != map[]
  }
}
