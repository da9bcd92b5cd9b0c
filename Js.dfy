/** The fragment of JavaScript value semantics the hooks depend on. */
module Js {

  /**
   * A JavaScript value as it appears in a node, a request body or an argument.
   * Numbers are reals with NaN kept apart; arrays are not modelled.
   */
  datatype Value =
    | Undefined
    | Null
    | Bool(b: bool)
    | Num(r: real)
    | NaN
    | Str(s: string)
    | Obj(props: map<string, Value>)

  /** The own properties of a plain object. */
  type Props = map<string, Value>

  /** Property read: a missing property reads as `undefined`. */
  function Get(o: Props, key: string): Value
  {
    if key in o then o[key] else Undefined
  }

  /** `!!v`. */
  predicate Truthy(v: Value)
  {
    match v
    case Undefined => false
    case Null => false
    case Bool(b) => b
    case Num(r) => r != 0.0
    case NaN => false
    case Str(s) => s != ""
    case Obj(_) => true
  }

  /**
   * `a === b`. NaN equals nothing; objects compare by reference, and two objects
   * that reach a hook from different sources are never the same reference.
   */
  predicate StrictEquals(a: Value, b: Value)
  {
    match (a, b)
    case (Undefined, Undefined) => true
    case (Null, Null) => true
    case (Bool(x), Bool(y)) => x == y
    case (Num(x), Num(y)) => x == y
    case (Str(x), Str(y)) => x == y
    case _ => false
  }

  /** `typeof v === 'number'` (NaN is a number). */
  predicate IsNumber(v: Value)
  {
    v.Num? || v.NaN?
  }

  /** `typeof v === 'string'`. */
  predicate IsString(v: Value)
  {
    v.Str?
  }

  /** What a template literal makes of a plain object: `${obj}`. */
  const ObjectToString := "[object Object]"

  lemma StrictEqualsSymmetric(a: Value, b: Value)
    ensures StrictEquals(a, b) == StrictEquals(b, a)
  {
  }
}
