/**
 * TurnLayoutManager itself: the mutable configuration, the cached circle
 * centre, the layout and scroll passes over the attached children, and the
 * Builder that validates a configuration before handing the manager out.
 *
 * The host RecyclerView is not part of this model: its size is the `vp`
 * argument of each pass, and its attached children are the `children` array,
 * already positioned along the scroll axis by the LinearLayoutManager
 * superclass when the pass starts.
 */
module Layout {
  import opened Arc
  import opened Attenuation
  import opened Child
  import opened Configuration

  datatype Result<T, E> = Ok(value: T) | Err(error: E)

  class TurnLayoutManager {
    var minScale: real
    var maxScale: real
    var minAlpha: real
    var maxAlpha: real
    var gravity: Gravity
    var radius: int
    var peekDistance: int
    var rotate: bool
    var center: Point
    /** Kept by the LinearLayoutManager superclass; getOrientation() reads it. */
    var orientation: Orientation

    /** Every setter keeps the radius and the peek non-negative (the peek may exceed the radius). */
    ghost predicate Valid()
      reads this
    {
      radius >= MIN_RADIUS && peekDistance >= MIN_PEEK
    }

    /** The fields a layout or scroll pass reads. */
    function Settings(): Config
      reads this
    {
      Config(gravity, radius, peekDistance, rotate, minScale, maxScale, minAlpha, maxAlpha)
    }

    /** The private constructor with default properties. */
    constructor (orientation: Orientation)
      ensures Valid()
      ensures this.orientation == orientation && gravity == Start && !rotate
      ensures radius == 0 && peekDistance == 0 && center == Point(0, 0)
      ensures minAlpha == maxAlpha == minScale == maxScale == 1.0
    {
      this.orientation := orientation;
      gravity := Start;
      // Both clamps read the fields while they still hold Java's default 0.
      radius := ClampRadius(0);
      peekDistance := InitialPeek(0, 0);
      rotate := false;
      center := Point(0, 0);
      minAlpha, maxAlpha := 1.0, 1.0;
      minScale, maxScale := 1.0, 1.0;
    }

    method SetRadius(radius: int)
      requires Valid()
      modifies this`radius
      ensures Valid()
      ensures this.radius == ClampRadius(radius)
      ensures peekDistance == old(peekDistance)
    {
      this.radius := ClampRadius(radius);
    }

    method SetPeekDistance(peekDistance: int)
      requires Valid()
      modifies this`peekDistance
      ensures Valid()
      ensures this.peekDistance == ClampPeek(peekDistance, radius)
      ensures 0 <= this.peekDistance <= radius
    {
      this.peekDistance := ClampPeek(peekDistance, radius);
    }

    method SetGravity(gravity: Gravity)
      modifies this`gravity
      ensures this.gravity == gravity
    {
      this.gravity := gravity;
    }

    method SetRotate(rotate: bool)
      modifies this`rotate
      ensures this.rotate == rotate
    {
      this.rotate := rotate;
    }

    method SetMinScale(minScale: real)
      modifies this`minScale
      ensures this.minScale == minScale
    {
      this.minScale := minScale;
    }

    method SetMaxScale(maxScale: real)
      modifies this`maxScale
      ensures this.maxScale == maxScale
    {
      this.maxScale := maxScale;
    }

    method SetMinAlpha(minAlpha: real)
      modifies this`minAlpha
      ensures this.minAlpha == minAlpha
    {
      this.minAlpha := minAlpha;
    }

    method SetMaxAlpha(maxAlpha: real)
      modifies this`maxAlpha
      ensures this.maxAlpha == maxAlpha
    {
      this.maxAlpha := maxAlpha;
    }

    method SetOrientation(orientation: Orientation)
      modifies this`orientation
      ensures this.orientation == orientation
    {
      this.orientation := orientation;
    }

    /**
     * setChildOffsets, setChildOffsetsVertical and setChildOffsetsHorizontal:
     * every attached child gets the per-child transform for orientation `o`,
     * the others are left alone.
     */
    method SetChildOffsets(o: Orientation, vp: Viewport, children: array<Option<View>>)
      modifies children
      ensures children[..] == PlaceAll(o, old(children[..]), Settings(), vp, center)
    {
      ghost var before := children[..];
      for i := 0 to children.Length
        invariant forall j :: 0 <= j < i ==> children[j] == PlaceSlot(o, before[j], Settings(), vp, center)
        invariant forall j :: i <= j < children.Length ==> children[j] == before[j]
      {
        children[i] := PlaceSlot(o, children[i], Settings(), vp, center);
      }
    }

    /**
     * onLayoutChildren: after the linear layout has placed the children, the
     * centre is recomputed from the current configuration and viewport, and
     * every attached child is transformed around it.
     */
    method OnLayoutChildren(vp: Viewport, children: array<Option<View>>)
      requires Valid()
      modifies this`center, children
      ensures Valid()
      ensures center == DeriveCenter(gravity, orientation, radius, peekDistance, vp)
      ensures children[..] == PlaceAll(orientation, old(children[..]), Settings(), vp, center)
    {
      center := DeriveCenter(gravity, orientation, radius, peekDistance, vp);
      SetChildOffsets(orientation, vp, children);
    }

    /**
     * scrollVerticallyBy: `consumed` is what the linear layout reports it
     * scrolled. The vertical transform runs around the cached centre, which is
     * not recomputed, and the amount is returned unchanged.
     */
    method ScrollVerticallyBy(consumed: int, vp: Viewport, children: array<Option<View>>) returns (scrolled: int)
      modifies children
      ensures unchanged(this)
      ensures scrolled == consumed
      ensures children[..] == PlaceAll(Vertical, old(children[..]), Settings(), vp, center)
    {
      scrolled := consumed;
      SetChildOffsets(Vertical, vp, children);
    }

    /** scrollHorizontallyBy: as ScrollVerticallyBy, across the other axis. */
    method ScrollHorizontallyBy(consumed: int, vp: Viewport, children: array<Option<View>>) returns (scrolled: int)
      modifies children
      ensures unchanged(this)
      ensures scrolled == consumed
      ensures children[..] == PlaceAll(Horizontal, old(children[..]), Settings(), vp, center)
    {
      scrolled := consumed;
      SetChildOffsets(Horizontal, vp, children);
    }
  }

  /**
   * TurnLayoutManager.Builder: the radius, peek, gravity, orientation and
   * rotate setters go through the manager's own setters; the scale and alpha
   * setters write the fields unchecked, and Build validates them.
   */
  class Builder {
    const layoutManager: TurnLayoutManager

    ghost predicate Valid()
      reads this, layoutManager
    {
      layoutManager.Valid()
    }

    constructor ()
      ensures Valid() && fresh(layoutManager)
      ensures layoutManager.orientation == Vertical && layoutManager.gravity == Start && !layoutManager.rotate
      ensures layoutManager.radius == 0 && layoutManager.peekDistance == 0
      ensures layoutManager.minAlpha == layoutManager.maxAlpha == 1.0
      ensures layoutManager.minScale == layoutManager.maxScale == 1.0
    {
      layoutManager := new TurnLayoutManager(Vertical);
    }

    method SetRadius(radius: int)
      requires Valid()
      modifies layoutManager`radius
      ensures Valid()
      ensures layoutManager.radius == ClampRadius(radius)
      ensures layoutManager.peekDistance == old(layoutManager.peekDistance)
    {
      layoutManager.SetRadius(radius);
    }

    method SetPeekDistance(peekDistance: int)
      requires Valid()
      modifies layoutManager`peekDistance
      ensures Valid()
      ensures layoutManager.peekDistance == ClampPeek(peekDistance, layoutManager.radius)
    {
      layoutManager.SetPeekDistance(peekDistance);
    }

    method SetGravity(gravity: Gravity)
      modifies layoutManager`gravity
      ensures layoutManager.gravity == gravity
    {
      layoutManager.SetGravity(gravity);
    }

    method SetOrientation(orientation: Orientation)
      modifies layoutManager`orientation
      ensures layoutManager.orientation == orientation
    {
      layoutManager.SetOrientation(orientation);
    }

    method SetRotate(rotate: bool)
      modifies layoutManager`rotate
      ensures layoutManager.rotate == rotate
    {
      layoutManager.SetRotate(rotate);
    }

    method SetMinScale(scale: real)
      modifies layoutManager`minScale
      ensures layoutManager.minScale == scale
    {
      layoutManager.minScale := scale;
    }

    method SetMaxScale(scale: real)
      modifies layoutManager`maxScale
      ensures layoutManager.maxScale == scale
    {
      layoutManager.maxScale := scale;
    }

    method SetMinAlpha(alpha: real)
      modifies layoutManager`minAlpha
      ensures layoutManager.minAlpha == alpha
    {
      layoutManager.minAlpha := alpha;
    }

    method SetMaxAlpha(alpha: real)
      modifies layoutManager`maxAlpha
      ensures layoutManager.maxAlpha == alpha
    {
      layoutManager.maxAlpha := alpha;
    }

    /**
     * build(): the manager itself when assertInputs passes, otherwise the
     * first failing check as the error.
     */
    method Build() returns (r: Result<TurnLayoutManager, ConfigError>)
      ensures r.Ok? <==> AssertInputs(layoutManager.minAlpha, layoutManager.maxAlpha,
                                      layoutManager.minScale, layoutManager.maxScale).Pass?
      ensures r.Ok? ==> r.value == layoutManager
      ensures r.Err? ==> r.error == AssertInputs(layoutManager.minAlpha, layoutManager.maxAlpha,
                                                 layoutManager.minScale, layoutManager.maxScale).error
    {
      var outcome := AssertInputs(layoutManager.minAlpha, layoutManager.maxAlpha,
                                  layoutManager.minScale, layoutManager.maxScale);
      match outcome
      case Pass => r := Ok(layoutManager);
      case Fail(e) => r := Err(e);
    }
  }

  /** Lowering the radius after the peek was set leaves the peek above the new radius. */
  method ShrinkingRadiusKeepsPeek() returns (radius: int, peek: int)
    ensures radius == 50 && peek == 80
    ensures peek > radius
  {
    var m := new TurnLayoutManager(Vertical);
    m.SetRadius(100);
    m.SetPeekDistance(80);
    m.SetRadius(50);
    radius, peek := m.radius, m.peekDistance;
  }

  /** A builder given minAlpha 0.2 and maxAlpha 0.1 refuses to build. */
  method BuilderRejectsInvertedAlpha() returns (r: Result<TurnLayoutManager, ConfigError>)
    ensures r == Err(MinAlphaAboveMaxAlpha)
    ensures Message(r.error) == "Max alpha cannot be higher than min alpha."
  {
    var b := new Builder();
    b.SetMinAlpha(0.2);
    b.SetMaxAlpha(0.1);
    r := b.Build();
  }

  /** The checks run in order: with both alpha bounds out of range, the lower one is reported. */
  method BuilderReportsFirstFailure() returns (r: Result<TurnLayoutManager, ConfigError>)
    ensures r == Err(MinAlphaBelowZero)
  {
    var b := new Builder();
    b.SetMinAlpha(-0.5);
    b.SetMaxAlpha(2.0);
    b.SetMinScale(3.0);
    r := b.Build();
  }
}
