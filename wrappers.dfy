/** Optional values: TypeScript's `T | undefined` and `T | null`. */
module Wrappers {

  datatype Option<T> = None | Some(value: T)

  /** `x || 0` for an optional number. */
  function OrZero(x: Option<real>): (r: real)
    ensures x.Some? ==> r == x.value
    ensures r == 0.0 <==> x.None? || x.value == 0.0
  {
    if x.Some? then x.value else 0.0
  }
}
