/** The two pieces of JavaScript value semantics that the auth flow relies on. */
module Js {
  import opened Wrappers

  /** `if (v)` on a value that is either `undefined` or a string: the empty string is falsy. */
  predicate Truthy(v: Option<string>)
  {
    v.Some? && v.value != ""
  }

  /** `String(v)`, which is what `localStorage.setItem` stores: `undefined` becomes "undefined". */
  function Stringify(v: Option<string>): string
  {
    match v
    case Some(text) => text
    case None => "undefined"
  }
}
