/** Optional values: a JavaScript property that may be `undefined`. */
module Wrappers {

  datatype Option<+T> = None | Some(value: T)

  /** JavaScript `o || d` on a number: `undefined` and `0` both fall back to `d`. */
  function OrElse(o: Option<real>, d: real): real
  {
    if o.Some? && o.value != 0.0 then o.value else d
  }

  /** JavaScript truthiness of an optional number (`undefined` and `0` are falsy). */
  predicate Truthy(o: Option<real>)
  {
    o.Some? && o.value != 0.0
  }
}
