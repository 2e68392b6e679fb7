/**
 * Scale and alpha attenuation: the "scrolled factor" that peaks at the middle
 * of the scroll axis, and the linear interpolation between a min and a max
 * bound that it drives.
 */
module Attenuation {

  /** A Java float as the attenuation code can produce it: a number, or NaN from 0 / 0f. */
  datatype FloatVal = Num(value: real) | NaN

  /** Math.round on a float: the nearest integer, ties rounded toward positive infinity. */
  function RoundHalfUp(x: real): (n: int)
    ensures x - 0.5 < n as real <= x + 0.5
  {
    (x + 0.5).Floor
  }

  /**
   * getScrolledFactorVertical/Horizontal once the midpoint is rounded to `pos`:
   * 0 off-screen, rising linearly from an edge to 1 at `extent / 2`. On a
   * viewport 0 or 1 pixel long the divisor `half` is 0 and so is the
   * numerator, and Java's 0 / 0f is NaN.
   */
  function FactorAt(extent: nat, pos: int): (f: FloatVal)
    ensures pos < 0 || pos > extent ==> f == Num(0.0)
    ensures extent >= 2 ==> f.Num? && 0.0 <= f.value <= 1.0
    ensures extent >= 2 && pos == extent / 2 ==> f == Num(1.0)
    ensures extent < 2 && 0 <= pos <= extent ==> f == NaN
  {
    var half := extent / 2;
    if pos < 0 || pos > extent then Num(0.0)
    else
      var distance := if pos > half then extent - pos else pos;
      if half == 0 then
        assert distance == 0;
        NaN
      else
        assert distance <= half;
        assert pos == half ==> distance as real / half as real == 1.0;
        Num(distance as real / half as real)
  }

  /** The scrolled factor of a child whose midpoint along the scroll axis is `mid`. */
  function ScrolledFactor(extent: nat, mid: real): (f: FloatVal)
    ensures mid < -0.5 || mid >= extent as real + 0.5 ==> f == Num(0.0)
    ensures extent >= 2 ==> f.Num? && 0.0 <= f.value <= 1.0
  {
    FactorAt(extent, RoundHalfUp(mid))
  }

  lemma DivideMonotone(a: real, b: real, d: real)
    requires 0.0 <= a <= b && d > 0.0
    ensures a / d <= b / d
  {
    assert b / d - a / d == (b - a) / d;
  }

  /** Moving from the leading edge toward the middle never lowers the factor. */
  lemma FactorRisesToMiddle(extent: nat, p: int, q: int)
    requires extent >= 2 && 0 <= p <= q <= extent / 2
    ensures FactorAt(extent, p).value <= FactorAt(extent, q).value
  {
    DivideMonotone(p as real, q as real, (extent / 2) as real);
  }

  /** Moving from the middle toward the trailing edge never raises the factor. */
  lemma FactorFallsAfterMiddle(extent: nat, p: int, q: int)
    requires extent >= 2 && extent / 2 <= p <= q <= extent
    ensures FactorAt(extent, p).value >= FactorAt(extent, q).value
  {
    var half := extent / 2;
    var dp := if p > half then extent - p else p;
    var dq := if q > half then extent - q else q;
    assert 0 <= dq <= dp;
    DivideMonotone(dq as real, dp as real, half as real);
  }

  /** On an even-length axis the factor is symmetric about the middle. */
  lemma FactorSymmetric(extent: nat, pos: int)
    requires extent % 2 == 0
    ensures FactorAt(extent, pos) == FactorAt(extent, extent - pos)
  {
  }

  lemma ScaleWithin(d: real, x: real)
    requires 0.0 <= d && 0.0 <= x <= 1.0
    ensures 0.0 <= d * x <= d
  {
    assert d - d * x == d * (1.0 - x);
  }

  /**
   * setChildScale/setChildAlpha: `lo + (hi - lo) * factor`. The bound named
   * "min" is reached at factor 0 (the edges) and "max" at factor 1 (the middle).
   */
  function Interpolate(lo: real, hi: real, f: FloatVal): (r: FloatVal)
    ensures r.NaN? <==> f.NaN?
    ensures f == Num(0.0) ==> r == Num(lo)
    ensures f == Num(1.0) ==> r == Num(hi)
    ensures f.Num? && 0.0 <= f.value <= 1.0 && lo <= hi ==> r.Num? && lo <= r.value <= hi
  {
    match f
    case NaN => NaN
    case Num(x) =>
      var v := lo + (hi - lo) * x;
      assert 0.0 <= x <= 1.0 && lo <= hi ==> lo <= v <= hi by {
        if 0.0 <= x <= 1.0 && lo <= hi {
          var d := hi - lo;
          ScaleWithin(d, x);
          assert v == lo + d * x;
        }
      }
      Num(v)
  }

  /**
   * setChildScaleVertical/Horizontal and setChildAlphaVertical/Horizontal:
   * with both bounds exactly 1 the value is 1 and no factor is taken;
   * otherwise the bounds are interpolated by the scrolled factor of the
   * child's midpoint `mid`.
   */
  function Envelope(lo: real, hi: real, extent: nat, mid: real): (r: FloatVal)
    ensures lo == hi == 1.0 ==> r == Num(1.0)
    ensures extent >= 2 && lo <= hi ==> r.Num? && lo <= r.value <= hi
    ensures extent < 2 && 0 <= RoundHalfUp(mid) <= extent && !(lo == hi == 1.0) ==> r == NaN
  {
    if lo == hi && lo == 1.0 then Num(1.0)
    else Interpolate(lo, hi, ScrolledFactor(extent, mid))
  }

  /** The unit fast path does not depend on where the child is or how large the viewport is. */
  lemma EnvelopeUnitIgnoresPosition(e1: nat, m1: real, e2: nat, m2: real)
    ensures Envelope(1.0, 1.0, e1, m1) == Envelope(1.0, 1.0, e2, m2) == Num(1.0)
  {
  }

  /** A child centred in the viewport gets `hi`; one centred on either edge gets `lo`. */
  lemma EnvelopeCentreAndEdges(lo: real, hi: real, extent: nat)
    requires extent >= 2
    ensures Envelope(lo, hi, extent, (extent / 2) as real) == Num(hi)
    ensures Envelope(lo, hi, extent, 0.0) == Num(lo)
    ensures Envelope(lo, hi, extent, extent as real) == Num(lo)
  {
    assert RoundHalfUp((extent / 2) as real) == extent / 2;
    assert RoundHalfUp(0.0) == 0;
    assert RoundHalfUp(extent as real) == extent;
  }
}
