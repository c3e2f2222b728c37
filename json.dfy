/** JSON values as the routes receive them after `JSON.parse`, and the
    JavaScript truthiness the handlers test them with. Numbers are integers. */
module JsonValue {
  import opened Common

  datatype Json =
    | JNull
    | JBool(b: bool)
    | JNum(n: int)
    | JStr(s: string)
    | JArr(elems: seq<Json>)
    | JObj(fields: map<string, Json>)

  /** `!!v` for a parsed JSON value. */
  predicate Truthy(v: Json) {
    match v
    case JNull => false
    case JBool(b) => b
    case JNum(n) => n != 0
    case JStr(s) => s != ""
    case JArr(_) => true
    case JObj(_) => true
  }

  /** `v.key` on a value that is not null: the field of an object, otherwise
      `undefined` (None). */
  function Get(v: Json, key: string): Option<Json>
    requires !v.JNull?
  {
    if v.JObj? && key in v.fields then Some(v.fields[key]) else None
  }

  /** `!!v.key`; an absent field is `undefined`, which is falsy. */
  predicate HasTruthy(v: Json, key: string)
    requires !v.JNull?
  {
    Get(v, key).Some? && Truthy(Get(v, key).value)
  }
}
