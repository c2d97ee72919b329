/** Integer arithmetic shared by the viewport controller and the scrollbars:
    JavaScript's Math.min/Math.max/Math.abs/Math.round on whole pixel values,
    and the offset clamping rule of the viewport. */
module ScrollMath {

  /** A value that may be absent: JavaScript's `null`/`undefined` arguments. */
  datatype Option<+T> = None | Some(value: T)

  function Min(a: int, b: int): (r: int)
    ensures r <= a && r <= b && (r == a || r == b)
  {
    if a <= b then a else b
  }

  function Max(a: int, b: int): (r: int)
    ensures r >= a && r >= b && (r == a || r == b)
  {
    if a >= b then a else b
  }

  function Abs(a: int): (r: int)
    ensures r >= 0 && (r == a || r == -a)
  {
    if a < 0 then -a else a
  }

  /** Math.round(p / q) for a positive divisor: the nearest integer to p/q,
      halves rounded up (towards +infinity), as JavaScript does. */
  function RoundHalfUp(p: int, q: int): (r: int)
    requires q > 0
    ensures 2 * q * r - q <= 2 * p < 2 * q * r + q
  {
    var n, d := 2 * p + q, 2 * q;
    var r := n / d;
    assert n == d * r + n % d && 0 <= n % d < d;
    r
  }

  /** The most negative offset an axis may take: content of length `extent`
      seen through a view of length `view` can move left/up by at most
      extent - view, and not at all when it fits. */
  function MinOffset(view: int, extent: int): (r: int)
    ensures r <= 0
    ensures extent <= view ==> r == 0
    ensures extent > view ==> r == view - extent
  {
    Min(view - extent, 0)
  }

  /** The offset clamping rule: the requested offset `target`, clamped into
      [MinOffset(view, extent), 0]. */
  function ClampOffset(target: int, view: int, extent: int): (r: int)
    ensures MinOffset(view, extent) <= r <= 0
    ensures MinOffset(view, extent) <= target <= 0 ==> r == target
    ensures target > 0 ==> r == 0
    ensures target < MinOffset(view, extent) ==> r == MinOffset(view, extent)
  {
    Max(Min(target, 0), MinOffset(view, extent))
  }

  /** Multiplying lo <= b <= hi by a >= 0 keeps the order. */
  lemma MulBounds(a: int, b: int, lo: int, hi: int)
    requires a >= 0 && lo <= b <= hi
    ensures a * lo <= a * b <= a * hi
  {
  }

  lemma MulMonotoneRight(a: int, b: int, c: int)
    requires a >= 0 && b <= c
    ensures a * b <= a * c
  {
  }

  /** A quotient rounded to the nearest integer stays between integer bounds
      of the exact quotient. */
  lemma RoundBetween(p: int, q: int, lo: int, hi: int)
    requires q > 0 && q * lo <= p <= q * hi
    ensures lo <= RoundHalfUp(p, q) <= hi
  {
    var r := RoundHalfUp(p, q);
    assert 2 * q * r <= 2 * q * hi + q;
    HalfStepBound(r, hi, q);
    assert 2 * q * lo < 2 * q * r + q;
    HalfStepBound(lo, r, q);
  }

  /** From 2*e*a <= 2*e*b + e with e > 0, conclude a <= b. */
  lemma HalfStepBound(a: int, b: int, e: int)
    requires e > 0 && 2 * e * a <= 2 * e * b + e
    ensures a <= b
  {
    var k := a - b;
    assert 2 * e * a - 2 * e * b == 2 * e * k;
    AtLeastOneStep(2 * e, k);
  }

  lemma AtLeastOneStep(m: int, k: int)
    requires m > 0
    ensures k >= 1 ==> m * k >= m
  {
  }

  lemma CancelPositive(a: int, b: int, c: int)
    requires c > 0 && a * c <= b * c
    ensures a <= b
  {
  }
}
