/** Decoded JSON values, as the HTTP client's `.json()` hands them to the adapters. */
module JsonData {

  /** A JSON document. Objects are maps: a decoded Python dict has one value per key. */
  datatype Json =
    | JNull
    | JBool(b: bool)
    | JInt(i: int)
    | JStr(s: string)
    | JList(items: seq<Json>)
    | JObj(fields: map<string, Json>)

  /** Python truthiness of the decoded value (`x or default`, `if x:`). */
  predicate Truthy(j: Json) {
    match j
    case JNull => false
    case JBool(b) => b
    case JInt(i) => i != 0
    case JStr(s) => s != ""
    case JList(items) => items != []
    case JObj(fields) => fields != map[]
  }

  /** Whether Python can use the decoded value as a dict key (lists and dicts cannot). */
  predicate Hashable(j: Json) {
    !j.JList? && !j.JObj?
  }
}
