/** The few JavaScript values and operators the two modelled files rely on:
    truthiness, the short-circuit `||`, and reading an object's `stack`. */
module JsValues {

  /** A JavaScript value, as far as the model needs to tell values apart.
      Numbers are integers (NaN, -0 and fractions are not modelled); an
      object is represented by its `stack` property (Undefined when absent). */
  datatype JsValue =
    | Undefined
    | Null
    | Bool(b: bool)
    | Num(n: int)
    | Str(s: string)
    | Obj(stack: JsValue)

  /** JavaScript's ToBoolean. */
  predicate Truthy(v: JsValue) {
    match v
    case Undefined => false
    case Null => false
    case Bool(b) => b
    case Num(n) => n != 0
    case Str(s) => s != ""
    case Obj(_) => true
  }

  /** `a || b`: the first operand when it is truthy, otherwise the second. */
  function Or(a: JsValue, b: JsValue): JsValue {
    if Truthy(a) then a else b
  }

  /** `v.stack`. Reading a property of `undefined` or `null` throws, so the
      caller must have ruled those out; primitives have no `stack`. */
  function StackOf(v: JsValue): JsValue
    requires v != Undefined && v != Null
  {
    if v.Obj? then v.stack else Undefined
  }
}
