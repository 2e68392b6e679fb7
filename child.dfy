/**
 * What one layout or scroll pass does to one attached child: move it across
 * the scroll axis onto the arc, then set its rotation, scale and alpha.
 */
module Child {
  import opened Arc
  import opened Attenuation

  datatype Option<T> = None | Some(value: T)

  /**
   * A child view as the pass reads and writes it: its frame, its start margin,
   * whether its layout params are RecyclerView.LayoutParams, and the transform
   * last written to it. Its translation is taken to be 0, so getX() and getY()
   * are its left and top.
   */
  datatype View = View(
    left: int, top: int, right: int, bottom: int,
    marginStart: int,
    recyclerParams: bool,
    rotation: Rotation,
    scaleX: FloatVal, scaleY: FloatVal,
    alpha: FloatVal)

  /** The configuration a pass reads from the manager. */
  datatype Config = Config(
    gravity: Gravity,
    radius: int,
    peek: int,
    rotate: bool,
    minScale: real, maxScale: real,
    minAlpha: real, maxAlpha: real)

  function Width(v: View): int
  {
    v.right - v.left
  }

  function Height(v: View): int
  {
    v.bottom - v.top
  }

  /** The child's leading coordinate along the scroll axis: getY() or getX(). */
  function LeadAlong(o: Orientation, v: View): int
  {
    match o
    case Vertical => v.top
    case Horizontal => v.left
  }

  /** The child's size along the scroll axis. */
  function SizeAlong(o: Orientation, v: View): int
  {
    match o
    case Vertical => Height(v)
    case Horizontal => Width(v)
  }

  /**
   * `getY() + getHeight() / 2` (or the x counterpart): the midpoint that the
   * offset and the rotation read, halved in int arithmetic, so for a child of
   * odd size it lies half a pixel before the true middle.
   */
  function MidAlong(o: Orientation, v: View): (m: int)
    ensures SizeAlong(o, v) >= 0 ==>
      0 <= 2 * (m - LeadAlong(o, v)) <= SizeAlong(o, v) <= 2 * (m - LeadAlong(o, v)) + 1
  {
    match o
    case Vertical => v.top + JavaHalf(Height(v))
    case Horizontal => v.left + JavaHalf(Width(v))
  }

  /**
   * `getY() + getHeight() / 2f` (or the x counterpart): the exact midpoint
   * that the scrolled factor rounds.
   */
  function MidAlongExact(o: Orientation, v: View): (m: real)
    ensures 2.0 * (m - LeadAlong(o, v) as real) == SizeAlong(o, v) as real
  {
    match o
    case Vertical => v.top as real + Height(v) as real / 2.0
    case Horizontal => v.left as real + Width(v) as real / 2.0
  }

  /**
   * The two midpoints disagree by half a pixel on a child of odd size: the
   * scrolled factor then reads the pixel after the one the offset and the
   * rotation read.
   */
  lemma MidpointsDiffer(o: Orientation, v: View)
    requires SizeAlong(o, v) >= 0
    ensures MidAlong(o, v) as real <= MidAlongExact(o, v) <= MidAlong(o, v) as real + 0.5
    ensures RoundHalfUp(MidAlongExact(o, v)) == MidAlong(o, v) + SizeAlong(o, v) % 2
  {
    var lead, size := LeadAlong(o, v), SizeAlong(o, v);
    var m := MidAlong(o, v);
    var x := MidAlongExact(o, v);
    assert x == lead as real + size as real / 2.0;
    if size % 2 == 0 {
      assert size == 2 * (m - lead);
      assert x == m as real;
    } else {
      assert size == 2 * (m - lead) + 1;
      assert x == m as real + 0.5;
      assert x + 0.5 == (m + 1) as real;
    }
  }

  /** The child's leading coordinate across the scroll axis. */
  function CrossStartOf(o: Orientation, v: View): int
  {
    match o
    case Vertical => v.left
    case Horizontal => v.top
  }

  /** The child's size across the scroll axis. */
  function CrossSize(o: Orientation, v: View): int
  {
    match o
    case Vertical => Width(v)
    case Horizontal => Height(v)
  }

  /**
   * The distance between the child and the gravity edge, not counting its
   * start margin: from its near side for START, from its far side for END.
   */
  function GapFromGravityEdge(o: Orientation, g: Gravity, vp: Viewport, v: View): int
  {
    match g
    case Start => CrossStartOf(o, v) - v.marginStart
    case End => CrossExtent(o, vp) - (CrossStartOf(o, v) + CrossSize(o, v)) - v.marginStart
  }

  /**
   * The new leading cross-axis coordinate of a child of cross size `size`:
   * `offset` plus the margin away from the START edge, or the mirror image of
   * that from the END edge.
   */
  function CrossStart(g: Gravity, crossExtent: int, offset: int, size: int, margin: int): (x: int)
    ensures g == Start ==> x - margin == offset
    ensures g == End ==> crossExtent - (x + size) - margin == offset
  {
    if g == Start then offset + margin else crossExtent - offset - size - margin
  }

  /**
   * The first step of the loop body in setChildOffsetsVertical/Horizontal:
   * `layout` the child across the scroll axis at the arc offset of its
   * midpoint, keeping its size and its along-axis frame.
   */
  function LayOnArc(o: Orientation, v: View, cfg: Config, vp: Viewport, c: Point): (w: View)
    ensures Width(w) == Width(v) && Height(w) == Height(v)
    ensures o == Vertical ==> w.top == v.top && w.bottom == v.bottom
    ensures o == Horizontal ==> w.left == v.left && w.right == v.right
    ensures w == v.(left := w.left, right := w.right, top := w.top, bottom := w.bottom)
    ensures CrossStartOf(o, w) == CrossStart(cfg.gravity, CrossExtent(o, vp),
      ArcOffset(cfg.radius, Abs(Along(o, c) - MidAlong(o, v)), cfg.peek), CrossSize(o, v), v.marginStart)
  {
    var offset := ArcOffset(cfg.radius, Abs(Along(o, c) - MidAlong(o, v)), cfg.peek);
    var start := CrossStart(cfg.gravity, CrossExtent(o, vp), offset, CrossSize(o, v), v.marginStart);
    match o
    case Vertical => v.(left := start, right := Width(v) + start)
    case Horizontal => v.(top := start, bottom := Height(v) + start)
  }

  /**
   * The whole loop body for one child: LayOnArc, then setChildRotation*,
   * setChildScale* and setChildAlpha*, each reading the child as laid out.
   */
  function PlaceChild(o: Orientation, v: View, cfg: Config, vp: Viewport, c: Point): (w: View)
    ensures Width(w) == Width(v) && Height(w) == Height(v)
    ensures o == Vertical ==> w.top == v.top && w.bottom == v.bottom
    ensures o == Horizontal ==> w.left == v.left && w.right == v.right
    ensures w.marginStart == v.marginStart && w.recyclerParams == v.recyclerParams
    ensures w.scaleX == w.scaleY
  {
    var laid := LayOnArc(o, v, cfg, vp, c);
    var scale := Envelope(cfg.minScale, cfg.maxScale, AlongExtent(o, vp), MidAlongExact(o, laid));
    laid.(
      rotation := ChildRotation(cfg.rotate, o, cfg.gravity, MidAlong(o, laid), Along(o, c), cfg.radius),
      scaleX := scale,
      scaleY := scale,
      alpha := Envelope(cfg.minAlpha, cfg.maxAlpha, AlongExtent(o, vp), MidAlongExact(o, laid)))
  }

  /** A null child, or one without RecyclerView layout params, is skipped and left as it was. */
  function PlaceSlot(o: Orientation, slot: Option<View>, cfg: Config, vp: Viewport, c: Point): (r: Option<View>)
    ensures slot.None? ==> r.None?
    ensures slot.Some? && !slot.value.recyclerParams ==> r == slot
    ensures slot.Some? ==> r.Some?
  {
    match slot
    case None => None
    case Some(v) => if v.recyclerParams then Some(PlaceChild(o, v, cfg, vp, c)) else slot
  }

  /**
   * One layout or scroll pass over the attached children, in index order: the
   * loop of setChildOffsetsVertical/Horizontal as a function of the children.
   * Each slot is transformed on its own, so the result is the per-slot step
   * applied at every index.
   */
  function PlaceAll(o: Orientation, slots: seq<Option<View>>, cfg: Config, vp: Viewport, c: Point)
    : (r: seq<Option<View>>)
    ensures |r| == |slots|
    ensures forall i :: 0 <= i < |slots| ==> r[i] == PlaceSlot(o, slots[i], cfg, vp, c)
    decreases |slots|
  {
    if slots == [] then []
    else [PlaceSlot(o, slots[0], cfg, vp, c)] + PlaceAll(o, slots[1..], cfg, vp, c)
  }

  /**
   * With 0 <= peek <= radius, every child ends up between `peek - radius` and
   * `peek` pixels (plus its margin) in from the gravity edge.
   */
  lemma PlaceChildOnArc(o: Orientation, v: View, cfg: Config, vp: Viewport, c: Point)
    requires 0 <= cfg.peek <= cfg.radius
    ensures cfg.peek - cfg.radius <= GapFromGravityEdge(o, cfg.gravity, vp, PlaceChild(o, v, cfg, vp, c)) <= cfg.peek
  {
  }

  /** A child whose midpoint lies on the centre line is placed exactly `peek` in from the gravity edge. */
  lemma PlaceChildAtApex(o: Orientation, v: View, cfg: Config, vp: Viewport, c: Point)
    requires cfg.radius >= 0 && MidAlong(o, v) == Along(o, c)
    ensures GapFromGravityEdge(o, cfg.gravity, vp, PlaceChild(o, v, cfg, vp, c)) == cfg.peek
  {
    ArcOffsetAtApex(cfg.radius, cfg.peek);
  }

  /**
   * Swapping START and END, each laid out around the centre a layout pass
   * derives for it, mirrors the child about the middle of the cross axis and
   * reverses its rotation, leaving scale and alpha as they were.
   */
  lemma PlaceChildGravityMirror(o: Orientation, v: View, cfg: Config, vp: Viewport)
    ensures var a := PlaceChild(o, v, cfg.(gravity := Start), vp, DeriveCenter(Start, o, cfg.radius, cfg.peek, vp));
            var b := PlaceChild(o, v, cfg.(gravity := End), vp, DeriveCenter(End, o, cfg.radius, cfg.peek, vp));
      && CrossStartOf(o, a) + CrossStartOf(o, b) + CrossSize(o, v) == CrossExtent(o, vp)
      && MidAlong(o, a) == MidAlong(o, b)
      && (cfg.rotate ==> a.rotation.opposite == b.rotation.opposite && a.rotation.sign == -b.rotation.sign)
      && a.scaleX == b.scaleX && a.scaleY == b.scaleY && a.alpha == b.alpha
  {
    var c1 := DeriveCenter(Start, o, cfg.radius, cfg.peek, vp);
    var c2 := DeriveCenter(End, o, cfg.radius, cfg.peek, vp);
    // The two centres differ only across the scroll axis, and a child's
    // placement reads the centre only along it.
    CenterGravityMirror(o, cfg.radius, cfg.peek, vp);
    assert Along(o, c1) == Along(o, c2);
    var a := LayOnArc(o, v, cfg.(gravity := Start), vp, c1);
    var b := LayOnArc(o, v, cfg.(gravity := End), vp, c2);
    assert MidAlong(o, a) == MidAlong(o, v) == MidAlong(o, b);
    assert MidAlongExact(o, a) == MidAlongExact(o, b);
    DirectionSignGravityFlip(o, MidAlong(o, v) > Along(o, c1));
  }

  /** Running the per-child transform twice gives what running it once does. */
  lemma PlaceChildIdempotent(o: Orientation, v: View, cfg: Config, vp: Viewport, c: Point)
    ensures PlaceChild(o, PlaceChild(o, v, cfg, vp, c), cfg, vp, c) == PlaceChild(o, v, cfg, vp, c)
  {
  }

  /** The whole per-slot step is idempotent too. */
  lemma PlaceSlotIdempotent(o: Orientation, slot: Option<View>, cfg: Config, vp: Viewport, c: Point)
    ensures PlaceSlot(o, PlaceSlot(o, slot, cfg, vp, c), cfg, vp, c) == PlaceSlot(o, slot, cfg, vp, c)
  {
    if slot.Some? && slot.value.recyclerParams {
      PlaceChildIdempotent(o, slot.value, cfg, vp, c);
    }
  }

  /**
   * A second pass over children that nothing moved in between (a scroll by 0,
   * or a layout followed by a scroll) changes nothing.
   */
  lemma {:induction false} PlaceAllIdempotent(o: Orientation, slots: seq<Option<View>>, cfg: Config, vp: Viewport, c: Point)
    ensures PlaceAll(o, PlaceAll(o, slots, cfg, vp, c), cfg, vp, c) == PlaceAll(o, slots, cfg, vp, c)
  {
    var once := PlaceAll(o, slots, cfg, vp, c);
    var twice := PlaceAll(o, once, cfg, vp, c);
    forall i | 0 <= i < |slots|
      ensures twice[i] == once[i]
    {
      PlaceSlotIdempotent(o, slots[i], cfg, vp, c);
    }
  }

  /** With rotation off, every child placed is exactly upright. */
  lemma PlaceChildUpright(o: Orientation, v: View, cfg: Config, vp: Viewport, c: Point)
    requires !cfg.rotate
    ensures PlaceChild(o, v, cfg, vp, c).rotation == Upright
  {
  }

  /** Unit scale bounds give scale 1 on both axes, unit alpha bounds give alpha 1. */
  lemma PlaceChildUnitEnvelope(o: Orientation, v: View, cfg: Config, vp: Viewport, c: Point)
    ensures cfg.minScale == cfg.maxScale == 1.0 ==>
      PlaceChild(o, v, cfg, vp, c).scaleX == PlaceChild(o, v, cfg, vp, c).scaleY == Num(1.0)
    ensures cfg.minAlpha == cfg.maxAlpha == 1.0 ==> PlaceChild(o, v, cfg, vp, c).alpha == Num(1.0)
  {
  }

  /**
   * On a viewport at least 2 pixels long, scale is the same on both axes and
   * lies within the scale bounds, and alpha within the alpha bounds.
   */
  lemma PlaceChildEnvelopeBounds(o: Orientation, v: View, cfg: Config, vp: Viewport, c: Point)
    requires AlongExtent(o, vp) >= 2
    ensures var w := PlaceChild(o, v, cfg, vp, c);
      && w.scaleX == w.scaleY
      && (cfg.minScale <= cfg.maxScale ==> w.scaleX.Num? && cfg.minScale <= w.scaleX.value <= cfg.maxScale)
      && (cfg.minAlpha <= cfg.maxAlpha ==> w.alpha.Num? && cfg.minAlpha <= w.alpha.value <= cfg.maxAlpha)
  {
  }
}
