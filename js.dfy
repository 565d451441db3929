/** The few JavaScript value rules the route handlers depend on: a session
    field or query parameter is either `undefined` or a string, and the
    handlers test it with `!v` and combine it with `||`. */
module Js {

  /** `undefined` (None) or a string value (Some). */
  datatype Option<+T> = None | Some(value: T)

  /** JavaScript truthiness of a string-or-undefined: `undefined` and the
      empty string are both falsy, every other string is truthy. */
  predicate Truthy(v: Option<string>) {
    v.Some? && v.value != ""
  }

  /** `a || b` for a string-or-undefined `a` and a string `b`: the left
      operand when it is truthy, otherwise the right one. */
  function Or(a: Option<string>, b: string): (r: string)
    ensures Some(r) == a || r == b
    ensures Truthy(a) ==> Some(r) == a
    ensures r != "" <==> Truthy(a) || b != ""
  {
    if Truthy(a) then a.value else b
  }
}
