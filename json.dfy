/**
 * JSON values as the services see them after `JSON.parse` / `json.loads`, and the
 * two truthiness rules (JavaScript's and Python's) the services branch on.
 * Turning text into values is not modelled: operations that parse receive the
 * decoder as a function `string -> Option<Json>`, where `None` means it threw.
 */
module JsonValue {
  import opened Wrappers

  datatype Json =
    | JNull
    | JBool(b: bool)
    | JNum(n: real)
    | JStr(s: string)
    | JArr(items: seq<Json>)
    | JObj(fields: map<string, Json>)

  /** A JSON object; `a + b` on two of them is JavaScript's `{...a, ...b}`
      and Python's `a.update(b)`: keys of `b` win. */
  type Obj = map<string, Json>

  /** `v?.key` in TypeScript: the field of an object, absent for anything else. */
  function Get(v: Json, key: string): (r: Option<Json>)
    ensures r.Some? <==> v.JObj? && key in v.fields
    ensures r.Some? ==> r.value == v.fields[key]
  {
    if v.JObj? && key in v.fields then Some(v.fields[key]) else None
  }

  /** JavaScript truthiness of a JSON value (`NaN` cannot come out of JSON). */
  predicate Truthy(v: Json) {
    match v
    case JNull => false
    case JBool(b) => b
    case JNum(n) => n != 0.0
    case JStr(s) => s != ""
    case _ => true
  }

  /** Python truthiness: empty lists and dicts are false as well. */
  predicate PyTruthy(v: Json) {
    match v
    case JArr(items) => items != []
    case JObj(fields) => fields != map[]
    case _ => Truthy(v)
  }

  /** `a || b` where `a` is an optional field read: the field when it is truthy. */
  function OrElse(field: Option<Json>, default: Json): (r: Json)
    ensures field.Some? && Truthy(field.value) ==> r == field.value
    ensures !(field.Some? && Truthy(field.value)) ==> r == default
  {
    if field.Some? && Truthy(field.value) then field.value else default
  }
}
