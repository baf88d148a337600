/**
 * JSON values as they cross the gateway: the arguments a caller supplies, the
 * bodies sent to the remote API and the payloads it returns. Remote payloads
 * are never inspected by the gateway, so they stay plain `Json` values.
 *
 * JavaScript numbers are modelled as `real`: the gateway only compares them
 * with bounds and copies them, it never computes with them.
 */
module JsonValue {

  datatype Json =
    | JNull
    | JBool(b: bool)
    | JNum(n: real)
    | JStr(s: string)
    | JArr(items: seq<Json>)
    | JObj(fields: map<string, Json>)

  /** `Number.isInteger` on a finite number. */
  predicate IsInt(x: real) {
    x.Floor as real == x
  }
}
