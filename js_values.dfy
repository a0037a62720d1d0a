/**
 * The JavaScript values the cart code inspects: a cart payload, a session
 * slot, a field of a cart. Numbers are modelled as integers (the cart code
 * only ever stores integer counts and cents); arrays are objects.
 */
module JsValues {
  import opened Wrappers

  datatype Value =
    | Undefined
    | Null
    | Bool(b: bool)
    | Num(n: int)
    | Str(s: string)
    | Obj(fields: map<string, Value>)

  /** JavaScript truthiness: `undefined`, `null`, `false`, `0` and `""` are falsy. */
  predicate Truthy(v: Value)
  {
    match v
    case Undefined => false
    case Null => false
    case Bool(b) => b
    case Num(n) => n != 0
    case Str(s) => s != ""
    case Obj(_) => true
  }

  /** Property read `v.key`: a missing key, or any key of a primitive, reads as `undefined`. */
  function Get(v: Value, key: string): Value
  {
    if v.Obj? && key in v.fields then v.fields[key] else Undefined
  }

  /** A user id as the cart store receives it: `null`/`undefined` or an integer. */
  type UserId = Option<int>

  /** `!userId` is false: the id is present and not `0`. */
  predicate PresentId(u: UserId)
  {
    u.Some? && u.value != 0
  }
}
