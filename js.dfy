/** JavaScript values as the order form sees them, and the `||` fallback it applies to them. */
module Js {

  /** A value that may be `undefined` or `null` (None) or present (Some). */
  datatype Option<+T> = None | Some(value: T)

  /** JavaScript truthiness of a number: `undefined`, `null` and `0` are falsy. */
  predicate Truthy(x: Option<real>)
  {
    x.Some? && x.value != 0.0
  }

  /** `x || d` for a number: `x` when it is truthy, `d` otherwise. */
  function Or(x: Option<real>, d: real): real
  {
    if Truthy(x) then x.value else d
  }

  /** `s || d` for a string: `undefined`, `null` and `''` are falsy. */
  function OrStr(s: Option<string>, d: string): string
  {
    if s.Some? && s.value != "" then s.value else d
  }
}
