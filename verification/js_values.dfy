/** JavaScript values as the OPTIONS exchange sees them from its callers.

    Only what the exchange observes is modelled: whether an argument is
    `undefined`, and whether it is truthy. Numbers are integers; NaN and
    fractional numbers are not represented.
 */
module JsValues {

  /** A value that may be missing (an absent property, a missing table entry). */
  datatype Option<+T> = None | Some(value: T)

  /** A JavaScript value, with objects kept opaque behind a reference number. */
  datatype JsValue =
    | Undefined
    | Null
    | Bool(b: bool)
    | Num(n: int)
    | Str(s: string)
    | Obj(ref: nat)

  /** ToBoolean: `undefined`, `null`, `false`, `0` and `""` are falsy, the rest truthy. */
  predicate Truthy(v: JsValue)
  {
    match v
    case Undefined => false
    case Null => false
    case Bool(b) => b
    case Num(n) => n != 0
    case Str(s) => s != ""
    case Obj(_) => true
  }

  /** `x || fallback` for an optional property: the property when present, else the fallback.
      Only used for arrays, which are always truthy when present. */
  function OrElse<T>(x: Option<T>, fallback: T): (r: T)
    ensures x.Some? ==> r == x.value
    ensures x.None? ==> r == fallback
  {
    match x
    case Some(v) => v
    case None => fallback
  }
}
