/** The two arithmetic rules the chart components share: clamping with
    `Math.max(lo, Math.min(hi, v))`, and the chart height that both
    `updateDimensions` handlers derive from the measured width. */
module Geometry {

  /** `Math.max(lo, Math.min(hi, v))`. */
  function Clamp(v: real, lo: real, hi: real): (r: real)
    ensures lo <= hi ==> lo <= r <= hi
    ensures lo <= v <= hi ==> r == v
    ensures v < lo ==> r == lo
    ensures lo <= hi < v ==> r == hi
  {
    if lo > (if hi < v then hi else v) then lo else (if hi < v then hi else v)
  }

  /** Clamping keeps the order of its inputs. */
  lemma ClampMonotone(a: real, b: real, lo: real, hi: real)
    requires a <= b
    ensures Clamp(a, lo, hi) <= Clamp(b, lo, hi)
  {
  }

  /** The product of two non-negative reals is non-negative. */
  lemma MulNonNegative(a: real, b: real)
    requires a >= 0.0 && b >= 0.0
    ensures a * b >= 0.0
  {
  }

  /** A fraction in [0, 1] of a non-negative length lies between 0 and it. */
  lemma ScaleWithin(a: real, b: real)
    requires 0.0 <= a <= 1.0 && b >= 0.0
    ensures 0.0 <= a * b <= b
  {
    assert (1.0 - a) * b >= 0.0;
  }

  /** `Math.min(400, width / 2)`: half the width, capped at 400 pixels. */
  function ChartHeight(width: real): (h: real)
    ensures h <= 400.0 && h <= width / 2.0
    ensures h == 400.0 || h == width / 2.0
  {
    if 400.0 < width / 2.0 then 400.0 else width / 2.0
  }
}
