// Python's numeric conversions and the clamps the preprocessors build
// from `max` and `min`.
module Numeric {
  /** `int(x)` on a float: truncation toward zero. */
  function Trunc(x: real): (n: int)
    ensures x >= 0.0 ==> n as real <= x < n as real + 1.0
    ensures x < 0.0 ==> n as real - 1.0 < x <= n as real
  {
    if x >= 0.0 then x.Floor else -((-x).Floor)
  }

  /** `max(lo, min(hi, x))` on integers. */
  function ClampInt(lo: int, hi: int, x: int): (r: int)
    requires lo <= hi
    ensures lo <= r <= hi
    ensures lo <= x <= hi ==> r == x
    ensures x < lo ==> r == lo
    ensures x > hi ==> r == hi
  {
    if x < lo then lo else if x > hi then hi else x
  }

  /** `max(lo, min(hi, x))` on floats. */
  function ClampReal(lo: real, hi: real, x: real): (r: real)
    requires lo <= hi
    ensures lo <= r <= hi
    ensures lo <= x <= hi ==> r == x
  {
    if x < lo then lo else if x > hi then hi else x
  }

  /** Python's `x % 2 == 1` on any integer (Python's remainder has the divisor's sign). */
  predicate Odd(x: int)
  {
    x % 2 == 1
  }

  /** `max(0, min(10, int(x)))`: the smoothing level both depth paths use. */
  function SmoothingLevel(x: real): (s: int)
    ensures 0 <= s <= 10
    ensures x < 1.0 ==> s == 0
    ensures x >= 10.0 ==> s == 10
    ensures 0.0 <= x < 11.0 ==> s as real <= x < s as real + 1.0
  {
    ClampInt(0, 10, Trunc(x))
  }

  /** The blur kernel side for a smoothing level: none at 0, else `2*s + 1`. */
  function SmoothingKernel(s: int): (k: int)
    requires 0 <= s <= 10
    ensures s > 0 ==> Odd(k) && 3 <= k <= 21 && (k - 1) / 2 == s
  {
    if s > 0 then 2 * s + 1 else 0
  }
}
