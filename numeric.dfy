/** Arithmetic helpers for the JavaScript numerics the app relies on. */
module Numeric {

  /** `Math.round(x)`: the integer nearest to `x`, halves rounded up (floor(x + 1/2)). */
  function Round(x: real): (r: int)
    ensures x - 0.5 < r as real <= x + 0.5
  {
    (x + 0.5).Floor
  }

  /** `a / b` where the source does not guard `b`; JavaScript would give an
      infinity or NaN for `b == 0`, which reals do not have, so that case is 0. */
  function Quot(a: real, b: real): real
  {
    if b == 0.0 then 0.0 else a / b
  }

  function Min(a: real, b: real): real { if a <= b then a else b }
  function Max(a: real, b: real): real { if a >= b then a else b }
}
