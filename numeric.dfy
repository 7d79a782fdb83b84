/** Numeric helpers shared by the decision engine and the risk engine, which
    each define the same `clamp`. */
module Numeric {

  function Abs(x: real): real
  {
    if x < 0.0 then -x else x
  }

  function Min(a: real, b: real): real
  {
    if a <= b then a else b
  }

  function Max(a: real, b: real): real
  {
    if a >= b then a else b
  }

  /** `max(min(value, hi), lo)`: `value` pulled into [lo, hi]; when the bounds
      are inverted the lower one wins. */
  function Clamp(value: real, lo: real, hi: real): (r: real)
    ensures lo <= hi ==> lo <= r <= hi
    ensures lo <= value <= hi ==> r == value
    ensures value < lo ==> r == lo
    ensures lo <= hi < value ==> r == hi
    ensures hi < lo ==> r == lo
  {
    Max(Min(value, hi), lo)
  }
}
