/**
 * Arithmetic the gesture pipeline borrows from Python and numpy:
 * `int()` on a float (truncation toward zero), `max(lo, min(hi, v))`,
 * `np.clip`, and `min`/`max` over a list of coordinates.
 */
module Numeric {

  /** Python's `int(r)` for a float `r`: truncation toward zero. */
  function Trunc(r: real): (n: int)
    ensures r >= 0.0 ==> n as real <= r < n as real + 1.0
    ensures r < 0.0 ==> n as real - 1.0 < r <= n as real
  {
    if r >= 0.0 then r.Floor else -((-r).Floor)
  }

  /** Truncation never reverses an ordering. */
  lemma TruncMonotone(a: real, b: real)
    requires a <= b
    ensures Trunc(a) <= Trunc(b)
  {
    if a >= 0.0 {
      assert Trunc(a) as real <= a <= b;
      assert b >= 0.0;
    } else if b < 0.0 {
      assert a <= b <= Trunc(b) as real;
    } else {
      assert Trunc(a) <= 0 <= Trunc(b);
    }
  }

  /** A value lying between two integers truncates to an integer between them too. */
  lemma TruncBetween(v: real, a: int, b: int)
    requires a <= b && a as real <= v <= b as real
    ensures a <= Trunc(v) <= b
  {
    TruncMonotone(a as real, v);
    TruncMonotone(v, b as real);
  }

  /** Python's `max(lo, min(hi, v))` on integers. */
  function ClampInt(lo: int, hi: int, v: int): (r: int)
    ensures lo <= hi ==> lo <= r <= hi
    ensures lo <= v <= hi ==> r == v
    ensures v < lo ==> r == lo
    ensures lo <= hi < v ==> r == hi
  {
    if lo > (if hi < v then hi else v) then lo else if hi < v then hi else v
  }

  /** numpy's `np.clip(v, lo, hi)` on reals (lo <= hi in every use). */
  function ClipReal(v: real, lo: real, hi: real): (r: real)
    requires lo <= hi
    ensures lo <= r <= hi
    ensures lo <= v <= hi ==> r == v
    ensures v < lo ==> r == lo
    ensures v > hi ==> r == hi
  {
    if v < lo then lo else if v > hi then hi else v
  }

  /** `min(xs)` of a non-empty list. */
  function MinOf(xs: seq<real>): (m: real)
    requires |xs| > 0
    ensures m in xs
    ensures forall i :: 0 <= i < |xs| ==> m <= xs[i]
  {
    if |xs| == 1 then xs[0]
    else
      var rest := MinOf(xs[1..]);
      if xs[0] <= rest then xs[0] else rest
  }

  /** `max(xs)` of a non-empty list. */
  function MaxOf(xs: seq<real>): (m: real)
    requires |xs| > 0
    ensures m in xs
    ensures forall i :: 0 <= i < |xs| ==> xs[i] <= m
  {
    if |xs| == 1 then xs[0]
    else
      var rest := MaxOf(xs[1..]);
      if xs[0] >= rest then xs[0] else rest
  }

  /**
   * Comparing two Euclidean norms is the same as comparing their squares:
   * the model compares squared distances wherever the source compares
   * `np.linalg.norm` values, so no square root is needed.
   */
  lemma SquareMonotone(a: real, b: real)
    requires a >= 0.0 && b >= 0.0
    ensures a < b <==> a * a < b * b
  {
    if a < b {
      MulStrict(a, b, a, b);
    } else if b < a {
      MulStrict(b, a, b, a);
    }
  }

  /** Products of non-negative reals are strictly monotone in both factors. */
  lemma MulStrict(a: real, b: real, c: real, d: real)
    requires 0.0 <= a < b && 0.0 <= c < d
    ensures a * c < b * d
  {
    assert a * c <= b * c by {
      assert b * c - a * c == (b - a) * c;
    }
    assert b * c < b * d by {
      assert b * d - b * c == b * (d - c);
    }
  }
}
