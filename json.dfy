/** Decoded JSON values, as `JSON.parse` produces them. */
module JsonValues {

  /** A JSON value. Numbers are restricted to integers; object members keep their order. */
  datatype Json =
    | JNull
    | JBool(b: bool)
    | JNumber(n: int)
    | JString(s: string)
    | JArray(items: seq<Json>)
    | JObject(members: seq<(string, Json)>)

  /** The literal `{}`. */
  const EmptyObject: Json := JObject([])

  /** JavaScript truthiness of a decoded value, as `!!v` computes it. */
  predicate Truthy(v: Json) {
    match v
    case JNull => false
    case JBool(b) => b
    case JNumber(n) => n != 0
    case JString(s) => s != ""
    case JArray(_) => true
    case JObject(_) => true
  }
}
