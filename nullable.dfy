/** Values a JavaScript record may leave out, and the defaults the dashboard
    components read in their place. Under `||` and `??`, `None` stands for
    `undefined` or `null`; under a destructuring default, which applies only to
    `undefined`, it stands for `undefined`. */
module Nullable {

  datatype Option<+T> = None | Some(value: T)

  /** `x || 0` and `x ?? 0` on a count: an absent count reads as 0.
      (On integers the two agree, since `0 || 0` is also 0.) */
  function OrZero(x: Option<int>): int {
    if x.Some? then x.value else 0
  }

  /** `x || 0` on a percentage. */
  function OrZeroReal(x: Option<real>): real {
    if x.Some? then x.value else 0.0
  }

  /** `xs || []` and `xs ?? []` on a list. */
  function OrEmpty<T>(xs: Option<seq<T>>): seq<T> {
    if xs.Some? then xs.value else []
  }
}
