/** JSON values: request bodies before validation, and the free-form `metadata` of stored records. */
module Json {

  datatype Json =
    | JNull
    | JBool(b: bool)
    | JNum(n: real)
    | JStr(s: string)
    | JArr(items: seq<Json>)
    | JObj(fields: map<string, Json>)

  /** A JSON number with no fractional part. */
  predicate IsInteger(v: Json) {
    v.JNum? && v.n.Floor as real == v.n
  }
}
