/**
 * The geometry of the turn: where the circle's centre lies for a gravity and
 * orientation, how far a child at a given distance from the centre line is
 * pushed across the scroll axis onto the arc, and the sign of its rotation.
 */
module Arc {

  /** The viewport edge the arc bulges toward. */
  datatype Gravity = Start | End

  /** The scroll axis, as the linear layout underneath defines it. */
  datatype Orientation = Vertical | Horizontal

  datatype Point = Point(x: int, y: int)

  /** Size of the RecyclerView the manager is attached to, in pixels. */
  datatype Viewport = Viewport(width: nat, height: nat)

  function Abs(n: int): nat
  {
    if n < 0 then -n else n
  }

  /** Java's `n / 2` on an int: the quotient is truncated toward zero. */
  function JavaHalf(n: int): (h: int)
    ensures n >= 0 ==> 0 <= 2 * h <= n && n - 2 * h <= 1
    ensures n < 0 ==> n <= 2 * h <= 0 && 2 * h - n <= 1
  {
    if n >= 0 then n / 2 else -((-n) / 2)
  }

  /** The coordinate of `p` along the scroll axis. */
  function Along(o: Orientation, p: Point): int
  {
    match o
    case Vertical => p.y
    case Horizontal => p.x
  }

  /** The coordinate of `p` across the scroll axis. */
  function Across(o: Orientation, p: Point): int
  {
    match o
    case Vertical => p.x
    case Horizontal => p.y
  }

  /** Length of the viewport along the scroll axis. */
  function AlongExtent(o: Orientation, vp: Viewport): nat
  {
    match o
    case Vertical => vp.height
    case Horizontal => vp.width
  }

  /** Length of the viewport across the scroll axis. */
  function CrossExtent(o: Orientation, vp: Viewport): nat
  {
    match o
    case Vertical => vp.width
    case Horizontal => vp.height
  }

  /** The cross-axis coordinate of the gravity edge. */
  function GravityEdge(g: Gravity, o: Orientation, vp: Viewport): int
  {
    match g
    case Start => 0
    case End => CrossExtent(o, vp)
  }

  /**
   * deriveCenter: the centre lies half-way along the scroll axis and
   * |radius - peek| beyond the gravity edge, outside the viewport.
   */
  function DeriveCenter(g: Gravity, o: Orientation, radius: int, peek: int, vp: Viewport): (c: Point)
    ensures Along(o, c) == AlongExtent(o, vp) / 2
    ensures Abs(Across(o, c) - GravityEdge(g, o, vp)) == Abs(radius - peek)
    ensures g == Start ==> Across(o, c) <= 0
    ensures g == End ==> Across(o, c) >= CrossExtent(o, vp)
  {
    var gravitySign := if g == Start then -1 else 1;
    var distanceMultiplier := if g == Start then 0 else 1;
    match o
    case Horizontal =>
      Point(vp.width / 2, distanceMultiplier * vp.height + gravitySign * Abs(radius - peek))
    case Vertical =>
      Point(distanceMultiplier * vp.width + gravitySign * Abs(radius - peek), vp.height / 2)
  }

  /** The START and END centres are mirror images about the middle of the cross axis. */
  lemma CenterGravityMirror(o: Orientation, radius: int, peek: int, vp: Viewport)
    ensures Along(o, DeriveCenter(Start, o, radius, peek, vp)) == Along(o, DeriveCenter(End, o, radius, peek, vp))
    ensures Across(o, DeriveCenter(Start, o, radius, peek, vp)) + Across(o, DeriveCenter(End, o, radius, peek, vp))
            == CrossExtent(o, vp)
  {
  }

  // ---------------------------------------------------------------------------
  // Square roots. `(int)(Math.sqrt(n) + k)` for integers n >= 0 and k is
  // computed exactly from the integer square root rounded down or up.

  lemma {:induction false} SquareMonotone(a: nat, b: nat)
    requires a <= b
    ensures a * a <= b * b
    ensures a < b ==> a * a < b * b
    decreases b - a
  {
    if a < b {
      SquareMonotone(a, b - 1);
      assert b * b == (b - 1) * (b - 1) + 2 * b - 1;
    }
  }

  /** One halving step of FloorSqrt: a root of n / 4, doubled, is within 1 of a root of n. */
  lemma FloorSqrtStep(n: nat, s: nat)
    requires s * s <= n / 4 < (s + 1) * (s + 1)
    ensures (2 * s) * (2 * s) <= n < (2 * s + 2) * (2 * s + 2)
  {
    var q := n / 4;
    assert 4 * q <= n < 4 * q + 4;
    assert (2 * s) * (2 * s) == 4 * (s * s);
    assert (2 * s + 2) * (2 * s + 2) == 4 * ((s + 1) * (s + 1));
    assert (s + 1) * (s + 1) >= q + 1;
  }

  /** The integer square root, rounded down. */
  function FloorSqrt(n: nat): (r: nat)
    ensures r * r <= n < (r + 1) * (r + 1)
  {
    if n == 0 then 0
    else
      var s := FloorSqrt(n / 4);
      FloorSqrtStep(n, s);
      var h := 2 * s;
      if (h + 1) * (h + 1) <= n then
        assert n < (h + 2) * (h + 2);
        h + 1
      else h
  }

  /** The integer square root, rounded up. */
  function CeilSqrt(n: nat): (r: nat)
    ensures n <= r * r
    ensures r == 0 || (r - 1) * (r - 1) < n
  {
    var f := FloorSqrt(n);
    if f * f == n then f else f + 1
  }

  /**
   * `t` is what Java's narrowing cast `(int)` makes of the real number √n + k:
   * the integer part, truncated toward zero.
   */
  ghost predicate IsTruncatedSqrtPlus(t: int, n: nat, k: int)
  {
    var u := t - k;
    && (t > 0 ==> 0 <= u && u * u <= n < (u + 1) * (u + 1))
    && (t < 0 ==> 0 <= u && n <= u * u && (u == 0 || (u - 1) * (u - 1) < n))
    && (t == 0 ==> 1 - k > 0 && n < (1 - k) * (1 - k) && (-1 - k < 0 || (-1 - k) * (-1 - k) < n))
  }

  lemma SqrtAtMostRadius(radius: nat, n: nat)
    requires n <= radius * radius
    ensures FloorSqrt(n) <= radius && CeilSqrt(n) <= radius
  {
    var f := FloorSqrt(n);
    if f > radius {
      SquareMonotone(radius, f);
      assert false;
    }
    if f == radius {
      assert f * f == n;
    }
  }

  /**
   * resolveOffsetX/Y followed by the `(int)` cast: the cross-axis distance at
   * which a child `opposite` pixels from the centre line meets the arc,
   * sqrt(radius² - opposite²) - radius + peek, truncated toward zero. A
   * negative radicand makes Math.sqrt return NaN, and `(int)` of NaN is 0.
   * With 0 <= peek <= radius every child lands between `peek - radius` (flush
   * with the far side of the arc) and `peek` (the apex), so |offset| <= radius.
   */
  function ArcOffset(radius: int, opposite: nat, peek: int): (offset: int)
    ensures 0 <= peek <= radius ==> peek - radius <= offset <= peek && Abs(offset) <= radius
    ensures radius * radius < opposite * opposite ==> offset == 0
  {
    var radicand := radius * radius - opposite * opposite;
    if radicand < 0 then 0
    else
      var k := peek - radius;
      var f := FloorSqrt(radicand);
      assert 0 <= peek <= radius ==> f <= radius && CeilSqrt(radicand) <= radius by {
        if 0 <= peek <= radius {
          SqrtAtMostRadius(radius, radicand);
        }
      }
      if f + k >= 0 then f + k else CeilSqrt(radicand) + k
  }

  /** Where the square root is defined, ArcOffset is exactly Java's truncation of the real offset. */
  lemma ArcOffsetTruncates(radius: int, opposite: nat, peek: int)
    requires radius * radius - opposite * opposite >= 0
    ensures IsTruncatedSqrtPlus(ArcOffset(radius, opposite, peek), radius * radius - opposite * opposite, peek - radius)
  {
    var n := radius * radius - opposite * opposite;
    var k := peek - radius;
    var f := FloorSqrt(n);
    var t := ArcOffset(radius, opposite, peek);
    if f + k >= 0 {
      assert t == f + k;
      if t == 0 {
        assert 1 - k == f + 1;
        if f >= 1 {
          SquareMonotone(f - 1, f);
          assert (f - 1) * (f - 1) < f * f by {
            assert f * f == (f - 1) * (f - 1) + 2 * f - 1;
          }
        }
      }
    } else {
      var c := CeilSqrt(n);
      assert c == f || c == f + 1;
      assert t == c + k;
      if t == 0 {
        assert c == f + 1;
        assert f * f != n;
        assert 1 - k == c + 1;
        assert n < c * c;
        assert c * c < (c + 1) * (c + 1);
        assert -1 - k == f;
      } else if t > 0 {
        assert false;
      }
    }
  }

  /** A child on the centre line sits at the apex of the arc: its offset is exactly `peek`. */
  lemma ArcOffsetAtApex(radius: nat, peek: int)
    ensures ArcOffset(radius, 0, peek) == peek
  {
    var n := radius * radius;
    var f := FloorSqrt(n);
    if f < radius {
      SquareMonotone(f + 1, radius);
      assert false;
    }
    if f > radius {
      SquareMonotone(radius, f);
      assert false;
    }
    assert CeilSqrt(n) == radius;
    assert radius * radius - 0 * 0 == n;
  }

  // ---------------------------------------------------------------------------
  // Rotation.

  /**
   * The rotation direction multiplier of setChildRotationVertical/Horizontal.
   * A child exactly on the centre is not past it.
   */
  function DirectionSign(o: Orientation, g: Gravity, pastCenter: bool): (s: int)
    ensures s == 1 || s == -1
    ensures s == 1 <==> ((g.Start? <==> pastCenter) <==> o.Vertical?)
  {
    match o
    case Vertical =>
      if g == End then (if pastCenter then -1 else 1) else (if pastCenter then 1 else -1)
    case Horizontal =>
      if g == End then (if pastCenter then 1 else -1) else (if pastCenter then -1 else 1)
  }

  /** For the same gravity and side of the centre, the two orientations turn children opposite ways. */
  lemma DirectionSignOrientationFlip(g: Gravity, pastCenter: bool)
    ensures DirectionSign(Vertical, g, pastCenter) == -DirectionSign(Horizontal, g, pastCenter)
  {
  }

  /** Swapping START and END reverses the direction. */
  lemma DirectionSignGravityFlip(o: Orientation, pastCenter: bool)
    ensures DirectionSign(o, Start, pastCenter) == -DirectionSign(o, End, pastCenter)
  {
  }

  /**
   * The angle handed to setRotation. `Upright` is exactly 0 degrees; a
   * `Tilt(sign, opposite, radius)` stands for
   * sign * toDegrees(asin(opposite / radius)), so its magnitude depends on
   * `opposite / radius` alone. asin and toDegrees are not computed.
   */
  datatype Rotation = Upright | Tilt(sign: int, opposite: nat, radius: int)

  /**
   * The rotation of a child whose midpoint along the scroll axis is `mid`:
   * upright when rotation is off, otherwise the table's direction times the
   * angle whose sine is the child's distance from the centre over the radius.
   */
  function ChildRotation(rotate: bool, o: Orientation, g: Gravity, mid: int, centerAlong: int, radius: int): (r: Rotation)
    ensures !rotate ==> r == Upright
    ensures rotate ==> r.Tilt? && r.opposite == Abs(mid - centerAlong) && r.radius == radius
    ensures rotate ==> (r.sign == 1 || r.sign == -1)
                       && (r.sign == 1 <==> ((g.Start? <==> mid > centerAlong) <==> o.Vertical?))
  {
    if !rotate then Upright
    else Tilt(DirectionSign(o, g, mid > centerAlong), Abs(mid - centerAlong), radius)
  }

  /**
   * Two children at the same distance on either side of the centre get the same
   * magnitude and opposite directions; at the centre itself the angle's
   * magnitude is asin(0), with the "not past" direction.
   */
  lemma ChildRotationMirror(o: Orientation, g: Gravity, d: nat, centerAlong: int, radius: int)
    requires d > 0
    ensures ChildRotation(true, o, g, centerAlong + d, centerAlong, radius).opposite
            == ChildRotation(true, o, g, centerAlong - d, centerAlong, radius).opposite == d
    ensures ChildRotation(true, o, g, centerAlong + d, centerAlong, radius).sign
            == -ChildRotation(true, o, g, centerAlong - d, centerAlong, radius).sign
    ensures ChildRotation(true, o, g, centerAlong, centerAlong, radius)
            == Tilt(DirectionSign(o, g, false), 0, radius)
  {
  }
}
