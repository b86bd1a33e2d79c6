/** JSON documents as the remote resource-management API returns them. */
module Json {

  /**
   * A decoded JSON value. Python's `None` is `JNull`; numbers are exact
   * reals (floating-point rounding is not modelled).
   */
  datatype Json =
    | JNull
    | JBool(b: bool)
    | JNum(n: real)
    | JStr(s: string)
    | JArr(items: seq<Json>)
    | JObj(fields: map<string, Json>)

  /** The empty object `{}`, the default of `d.get(k, {})`. */
  const EmptyObject: Json := JObj(map[])
}
