/**
 JavaScript value conventions the storefront relies on: nullable values and
 the truthiness rules behind `a || b` and `cond && x`.
 */
module Js {

  /** A value that may be `null` or `undefined` (`None`) or present (`Some`). */
  datatype Option<+T> = None | Some(value: T)

  /** The `{ data, error }` pair a backend call resolves to: the data, or an
      error carrying its code. */
  datatype Response<+T> = Data(value: T) | Error(code: string)

  /** Truthiness of a nullable string: `null`, `undefined` and `""` are falsy. */
  predicate Truthy(s: Option<string>) {
    s.Some? && s.value != ""
  }

  /** `a || fallback` where `a` is a nullable string. The result is truthy
      exactly when one of the operands is. */
  function OrElse(a: Option<string>, fallback: string): (r: string)
    ensures Truthy(a) ==> r == a.value
    ensures r != "" <==> Truthy(a) || fallback != ""
  {
    if Truthy(a) then a.value else fallback
  }

  /** `a || fallback` where `a` is a string that is never null. */
  function Or(a: string, fallback: string): (r: string)
    ensures r == OrElse(Some(a), fallback)
  {
    if a != "" then a else fallback
  }
}
