/** Scalar helpers used by every rule of the simulation (game.js:172-174 and the
    Math.min / Math.max / Math.round calls of the balance curves). JavaScript numbers
    are modelled as mathematical reals; floating-point rounding is not modelled. */
module Numeric {

  /** A value Math.random() can return. */
  type Draw = r: real | 0.0 <= r < 1.0

  function Min(a: real, b: real): (r: real)
    ensures r <= a && r <= b
    ensures r == a || r == b
  {
    if a <= b then a else b
  }

  function Max(a: real, b: real): (r: real)
    ensures r >= a && r >= b
    ensures r == a || r == b
  {
    if a >= b then a else b
  }

  function IMin(a: int, b: int): (r: int)
    ensures r <= a && r <= b
    ensures r == a || r == b
  {
    if a <= b then a else b
  }

  function IMax(a: int, b: int): (r: int)
    ensures r >= a && r >= b
    ensures r == a || r == b
  {
    if a >= b then a else b
  }

  function Abs(x: real): (r: real)
    ensures r >= 0.0 && (r == x || r == -x)
  {
    if x >= 0.0 then x else -x
  }

  /** clamp(v, min, max) = Math.max(min, Math.min(max, v)). When the bounds are
      inverted the lower bound wins, as in the source. */
  function Clamp(v: real, lo: real, hi: real): (r: real)
    ensures lo <= hi ==> lo <= r <= hi
    ensures lo <= v <= hi ==> r == v
    ensures v <= lo ==> r == lo
    ensures lo <= hi <= v ==> r == hi
  {
    Max(lo, Min(hi, v))
  }

  lemma ClampMonotone(v1: real, v2: real, lo: real, hi: real)
    requires v1 <= v2
    ensures Clamp(v1, lo, hi) <= Clamp(v2, lo, hi)
  {
  }

  /** A product of non-negative factors grows with each factor. */
  lemma MulMonotone(a: real, b: real, a0: real, b0: real)
    requires 0.0 <= a0 <= a && 0.0 <= b0 <= b
    ensures a0 * b0 <= a * b
  {
    assert 0.0 <= (a - a0) * b;
    assert 0.0 <= a0 * (b - b0);
    assert a * b - a0 * b0 == (a - a0) * b + a0 * (b - b0);
  }

  /** Math.round: the nearest integer, halves rounded towards +infinity. */
  function Round(x: real): (n: int)
    ensures n as real - 0.5 <= x < n as real + 0.5
  {
    (x + 0.5).Floor
  }

  lemma RoundMonotone(x: real, y: real)
    requires x <= y
    ensures Round(x) <= Round(y)
  {
  }
}
