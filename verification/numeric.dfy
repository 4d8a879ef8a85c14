/** Real-number helpers for JavaScript's `Math.min`, `Math.abs`, `Math.round` and `Math.ceil`. */
module Numeric {

  function Min(a: real, b: real): (r: real)
    ensures r <= a && r <= b && (r == a || r == b)
  {
    if a <= b then a else b
  }

  function Abs(x: real): (r: real)
    ensures r >= 0.0 && (r == x || r == -x)
  {
    if x < 0.0 then -x else x
  }

  /** `Math.round`: the nearest integer, halves rounded upwards. */
  function Round(x: real): (r: int)
    ensures x - 0.5 < r as real <= x + 0.5
  {
    (x + 0.5).Floor
  }

  /** `Math.ceil`: the least integer not below `x`. */
  function Ceil(x: real): (r: int)
    ensures x <= r as real < x + 1.0
  {
    -((-x).Floor)
  }

  /** Dividing by a positive number and multiplying back is the identity. */
  lemma RatioScalesBack(x: real, n: real)
    requires n > 0.0
    ensures (x / n) * n == x
  {
  }

  /** A part of a positive whole is a ratio between 0 and 1. */
  lemma RatioAtMostOne(x: real, n: real)
    requires 0.0 <= x <= n && n > 0.0
    ensures 0.0 <= x / n <= 1.0
  {
    RatioScalesBack(x, n);
    RatioScalesBack(n, n);
  }
}
