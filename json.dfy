/** The JSON values the proxy passes through without interpreting them
    (tool schemas, tool inputs, sampling parameters, the token file). */
module Json {

  /** A decoded JSON value. Numbers are integers here: the proxy only copies,
      adds and compares them. */
  datatype Json =
    | JNull
    | JBool(b: bool)
    | JNum(n: int)
    | JStr(s: string)
    | JArr(items: seq<Json>)
    | JObj(fields: map<string, Json>)

  /** The empty JSON object `{}`. */
  const EmptyObject: Json := JObj(map[])

  /** Python's truthiness of a decoded JSON value, as used by `if x:`. */
  predicate Truthy(j: Json) {
    match j
    case JNull => false
    case JBool(b) => b
    case JNum(n) => n != 0
    case JStr(s) => s != ""
    case JArr(items) => items != []
    case JObj(fields) => fields != map[]
  }
}
