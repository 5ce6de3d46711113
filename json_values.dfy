/** The JSON values a request body carries, as Python's `json` module reads
    them, and Python's truth test on them. */
module JsonValues {

  datatype Json =
    | JNull
    | JBool(b: bool)
    | JNumber(n: int)
    | JString(s: string)
    | JList(items: seq<Json>)
    | JObject(entries: seq<(string, Json)>)

  /** `bool(v)`: `None`, `False`, zero and empty strings, lists and
      dictionaries are false. */
  predicate Truthy(v: Json) {
    match v
    case JNull => false
    case JBool(b) => b
    case JNumber(n) => n != 0
    case JString(s) => s != []
    case JList(items) => items != []
    case JObject(entries) => entries != []
  }
}
