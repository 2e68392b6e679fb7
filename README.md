# TurnLayoutManager, modelled in Dafny

This project models the layout engine of `TurnLayoutManager`. It is a
`LinearLayoutManager` that makes a RecyclerView's items look as if they lie on
the arc of a circle. The circle touches one edge of the viewport: the gravity
edge, START or END. The manager has:

- a small mutable configuration: radius, peek distance, gravity, orientation,
  the rotate flag, and the min/max scale and alpha;
- a cached circle centre, derived from that configuration and the viewport;
- two passes, run on every layout (`onLayoutChildren`) and every scroll
  (`scrollVerticallyBy` / `scrollHorizontallyBy`).

Each pass visits every attached child. It moves the child across the scroll
axis onto the arc. It sets a signed rotation. It sets scale and alpha from a
"scrolled factor" that peaks in the middle of the viewport. A `Builder` collects
settings and validates them when it builds the manager.

Modules:

- `Arc` (arc.dfy): gravity, orientation, the centre (`deriveCenter`), the arc
  offset (`resolveOffsetX/Y` with the `(int)` cast), and the rotation sign
  table.
- `Attenuation` (attenuation.dfy): the scrolled factor
  (`getScrolledFactor*`), and scale/alpha interpolation with the unit fast
  path.
- `Child` (child.dfy): a child view record and the per-child step of the
  layout loops, with its properties.
- `Configuration` (configuration.dfy): the clamping setters and the ordered
  checks of `Builder.assertInputs`.
- `Layout` (layout.dfy): the `TurnLayoutManager` class and its `Builder`.
  Their methods update fields in place. The layout loop rewrites an array of
  children in place.

Arithmetic choices:

- `Math.sqrt` is not abstracted. For an integer radicand `n` and an integer
  `k`, `(int)(Math.sqrt(n) + k)` is computed exactly from the integer square
  root, rounded down or up. `ArcOffsetTruncates` proves that the result is the
  truncation toward zero of the real number √n + k.
- `Math.asin` and `Math.toDegrees` are kept symbolic. A `Tilt(sign, opposite,
  radius)` stands for `sign * toDegrees(asin(opposite / radius))`.
- Java floats are reals, plus a `NaN` value where the code can produce one.

Behaviour of the code that the model keeps:

- A child farther from the centre line than the radius has a negative
  radicand. `Math.sqrt` of it is NaN, and `(int)` of NaN is 0, so the child's
  offset is 0.
- The rotation of such a child is `asin` of a ratio above 1, which is NaN.
  The model keeps it as a `Tilt` whose opposite exceeds its radius.
- `setRadius` leaves the peek as it is, so a smaller radius can leave
  `peek > radius` (`ShrinkingRadiusKeepsPeek`).
- The manager's own scale and alpha setters store their argument unchecked.
- The builder rejects a max scale above `Float.MAX_VALUE`.

## Model

| member | source | states |
|---|---|---|
| `Arc.JavaHalf` | turn/src/main/java/cdflynn/android/library/turn/TurnLayoutManager.java:342 | `getHeight() / 2` truncates toward zero: twice the result is within 1 of the input, on the input's side of 0 |
| `Arc.DeriveCenter` | turn/src/main/java/cdflynn/android/library/turn/TurnLayoutManager.java:262-284 | the centre is halfway along the scroll axis (`H/2` or `W/2`), and exactly \|radius − peek\| beyond the gravity edge, outside the viewport (≤ 0 for START, ≥ the cross extent for END) |
| `Arc.CenterGravityMirror` | turn/src/main/java/cdflynn/android/library/turn/TurnLayoutManager.java:267-281 | the START and END centres share the along-axis coordinate, and their cross-axis coordinates sum to the viewport's cross extent (`x_start + x_end = W` for VERTICAL) |
| `Arc.FloorSqrt` | turn/src/main/java/cdflynn/android/library/turn/TurnLayoutManager.java:294 | integer square root rounded down: r² ≤ n < (r+1)² |
| `Arc.CeilSqrt` | turn/src/main/java/cdflynn/android/library/turn/TurnLayoutManager.java:294 | integer square root rounded up: n ≤ r² and (r−1)² < n unless r = 0 |
| `Arc.ArcOffset` | turn/src/main/java/cdflynn/android/library/turn/TurnLayoutManager.java:290-296 | with 0 ≤ peek ≤ radius the truncated offset lies in [peek − radius, peek], so \|offset\| ≤ radius; a child farther from the centre line than the radius (negative radicand, NaN) gets offset 0 |
| `Arc.ArcOffsetTruncates` | turn/src/main/java/cdflynn/android/library/turn/TurnLayoutManager.java:341-344 | when radius² − opposite² ≥ 0, the offset is exactly `(int)` (truncation toward zero) of √(radius² − opposite²) − radius + peek |
| `Arc.ArcOffsetAtApex` | turn/src/main/java/cdflynn/android/library/turn/TurnLayoutManager.java:290-296 | a child on the centre line (opposite = 0) gets offset exactly `peek` |
| `Arc.DirectionSign` | turn/src/main/java/cdflynn/android/library/turn/TurnLayoutManager.java:362-368 | the direction is ±1, and it is +1 exactly when ((gravity is START) ⇔ pastCenter) ⇔ (orientation is VERTICAL), which covers both four-way tables |
| `Arc.DirectionSignOrientationFlip` | turn/src/main/java/cdflynn/android/library/turn/TurnLayoutManager.java:408-414 | for the same gravity and side of the centre, VERTICAL and HORIZONTAL give opposite signs |
| `Arc.DirectionSignGravityFlip` | turn/src/main/java/cdflynn/android/library/turn/TurnLayoutManager.java:364-368 | swapping START and END negates the sign |
| `Arc.ChildRotation` | turn/src/main/java/cdflynn/android/library/turn/TurnLayoutManager.java:357-371 | rotate off gives exactly 0 (`Upright`); rotate on gives the table's sign (+1 exactly when ((START ⇔ past the centre) ⇔ VERTICAL)) and the asin argument \|mid − centre\| / radius |
| `Arc.ChildRotationMirror` | turn/src/main/java/cdflynn/android/library/turn/TurnLayoutManager.java:403-417 | children at equal distances on either side of the centre get the same asin argument and opposite signs; a child exactly at the centre counts as not past it |
| `Attenuation.RoundHalfUp` | turn/src/main/java/cdflynn/android/library/turn/TurnLayoutManager.java:436 | `Math.round` returns the nearest integer, with ties going up: x − ½ < n ≤ x + ½ |
| `Attenuation.FactorAt` | turn/src/main/java/cdflynn/android/library/turn/TurnLayoutManager.java:433-439 | 0 when the rounded position is outside [0, E]; in [0, 1] when E ≥ 2; 1 at E/2; NaN (0/0f) when E < 2 and the position is on screen |
| `Attenuation.ScrolledFactor` | turn/src/main/java/cdflynn/android/library/turn/TurnLayoutManager.java:422-428 | a midpoint below −½ or at or above E + ½ rounds off-screen and gives 0; for E ≥ 2 the factor lies in [0, 1] |
| `Attenuation.FactorRisesToMiddle` | turn/src/main/java/cdflynn/android/library/turn/TurnLayoutManager.java:437-438 | the factor does not decrease on [0, E/2] |
| `Attenuation.FactorFallsAfterMiddle` | turn/src/main/java/cdflynn/android/library/turn/TurnLayoutManager.java:426-427 | the factor does not increase on [E/2, E] |
| `Attenuation.FactorSymmetric` | turn/src/main/java/cdflynn/android/library/turn/TurnLayoutManager.java:424-427 | for even E, f(pos) = f(E − pos) |
| `Attenuation.Interpolate` | turn/src/main/java/cdflynn/android/library/turn/TurnLayoutManager.java:470-474 | `min + (max − min)·f` is `min` at f = 0 and `max` at f = 1; it lies in [min, max] when min ≤ max and f ∈ [0, 1]; it is NaN exactly when f is NaN |
| `Attenuation.Envelope` | turn/src/main/java/cdflynn/android/library/turn/TurnLayoutManager.java:457-465 | bounds exactly 1 and 1 give 1; otherwise, with min ≤ max and E ≥ 2, the value lies within the bounds; for a viewport shorter than 2 pixels, an on-screen child gets NaN |
| `Attenuation.EnvelopeUnitIgnoresPosition` | turn/src/main/java/cdflynn/android/library/turn/TurnLayoutManager.java:491-495 | with unit bounds, the output is 1 for every child position and viewport size: the factor is never consulted |
| `Attenuation.EnvelopeCentreAndEdges` | turn/src/main/java/cdflynn/android/library/turn/TurnLayoutManager.java:457-474 | a child centred in the viewport gets `max`; a child centred on either edge gets `min` |
| `Child.MidAlong` | turn/src/main/java/cdflynn/android/library/turn/TurnLayoutManager.java:341-342 | `getY() + getHeight() / 2`: for a child of non-negative size, twice its distance from the child's leading edge is the size, or the size minus 1 for an odd size |
| `Child.MidAlongExact` | turn/src/main/java/cdflynn/android/library/turn/TurnLayoutManager.java:436 | `getY() + getHeight() / 2f`: exactly half the size past the leading edge |
| `Child.MidpointsDiffer` | turn/src/main/java/cdflynn/android/library/turn/TurnLayoutManager.java:425-436 | the int midpoint (offset, rotation) is at most half a pixel before the float one (scrolled factor), and `Math.round` of the float one is the int midpoint for an even size and the next pixel for an odd size |
| `Child.CrossStart` | turn/src/main/java/cdflynn/android/library/turn/TurnLayoutManager.java:345-346 | START: the new left is `offset + marginStart`; END: the child's far side is `offset + marginStart` in from the END edge (`W − offset − width − marginStart`) |
| `Child.LayOnArc` | turn/src/main/java/cdflynn/android/library/turn/TurnLayoutManager.java:341-347 | the `layout` call keeps the child's size, its along-axis frame and every other property; only the cross-axis position moves, to the arc offset of the child's midpoint, measured from the gravity edge |
| `Child.PlaceChild` | turn/src/main/java/cdflynn/android/library/turn/TurnLayoutManager.java:341-350 | after the whole loop body, the child keeps its width and height; VERTICAL keeps top and bottom; HORIZONTAL keeps left and right; margin and params are untouched; scale X equals scale Y |
| `Child.PlaceSlot` | turn/src/main/java/cdflynn/android/library/turn/TurnLayoutManager.java:336-340 | a null child stays null; a child without RecyclerView layout params is left unmodified |
| `Child.PlaceAll` | turn/src/main/java/cdflynn/android/library/turn/TurnLayoutManager.java:336-351 | one pass over the attached children keeps their number, and leaves every slot holding the per-slot step applied to that slot alone: no child's placement depends on another's |
| `Child.PlaceAllIdempotent` | turn/src/main/java/cdflynn/android/library/turn/TurnLayoutManager.java:236-255 | a second layout or scroll pass with nothing moved in between (a scroll that consumed 0) leaves every child as the first pass left it |
| `Child.PlaceChildOnArc` | turn/src/main/java/cdflynn/android/library/turn/TurnLayoutManager.java:341-347 | with 0 ≤ peek ≤ radius, the child's gap from the gravity edge, after its margin, is within [peek − radius, peek] |
| `Child.PlaceChildAtApex` | turn/src/main/java/cdflynn/android/library/turn/TurnLayoutManager.java:386-393 | a child whose midpoint is on the centre line is placed exactly `peek` (plus its margin) from the gravity edge |
| `Child.PlaceChildGravityMirror` | turn/src/main/java/cdflynn/android/library/turn/TurnLayoutManager.java:390-394 | laying the child out with START around the START centre and with END around the END centre (as `onLayoutChildren` derives them) mirrors its cross-axis position about the middle of the viewport and flips the rotation sign; the asin argument, scale and alpha are unchanged |
| `Child.PlaceChildIdempotent` | turn/src/main/java/cdflynn/android/library/turn/TurnLayoutManager.java:331-352 | applying the per-child transform twice gives the same as applying it once |
| `Child.PlaceSlotIdempotent` | turn/src/main/java/cdflynn/android/library/turn/TurnLayoutManager.java:376-398 | the per-slot step, skips included, is idempotent, so a second pass with no change in between changes nothing |
| `Child.PlaceChildUpright` | turn/src/main/java/cdflynn/android/library/turn/TurnLayoutManager.java:404-407 | with rotate off, every placed child's rotation is exactly 0 |
| `Child.PlaceChildUnitEnvelope` | turn/src/main/java/cdflynn/android/library/turn/TurnLayoutManager.java:444-449 | min scale = max scale = 1 gives scale 1 on both axes; min alpha = max alpha = 1 gives alpha 1 |
| `Child.PlaceChildEnvelopeBounds` | turn/src/main/java/cdflynn/android/library/turn/TurnLayoutManager.java:444-486 | on a viewport at least 2 pixels long, the same scale goes to X and Y, and scale and alpha lie within their ordered bounds |
| `Configuration.ClampRadius` | turn/src/main/java/cdflynn/android/library/turn/TurnLayoutManager.java:191 | the stored radius is the radius raised to 0: non-negative, at least the argument, and equal to it or 0 |
| `Configuration.ClampPeek` | turn/src/main/java/cdflynn/android/library/turn/TurnLayoutManager.java:196 | the stored peek is at most the radius; it is at least 0 when the radius is; for a non-negative radius, a peek in [0, radius] is kept, one at or above the radius becomes the radius, and one at or below 0 becomes 0 |
| `Configuration.LegacyConstructorPeek` | turn/src/main/java/cdflynn/android/library/turn/TurnLayoutManager.java:159-165 | the deprecated constructor clamps the peek against the raw radius argument, so a negative radius gives a peek equal to that negative radius |
| `Configuration.LegacyConstructorPeekNegative` | turn/src/main/java/cdflynn/android/library/turn/TurnLayoutManager.java:163-164 | radius −1 is stored as 0, but the peek is stored as −1 |
| `Configuration.InitialPeek` | turn/src/main/java/cdflynn/android/library/turn/TurnLayoutManager.java:180-181 | the documented clamp: the peek lies in [0, clamped radius] and is kept when already in [0, radius] |
| `Configuration.AssertInputs` | turn/src/main/java/cdflynn/android/library/turn/TurnLayoutManager.java:577-596 | a failure names a violated check, and every check earlier in the fixed order passed |
| `Configuration.MessageIdentifiesCheck` | turn/src/main/java/cdflynn/android/library/turn/TurnLayoutManager.java:578-595 | the six exception messages are pairwise different, so the message names the check that failed |
| `Configuration.AssertInputsPassExactly` | turn/src/main/java/cdflynn/android/library/turn/TurnLayoutManager.java:578-595 | the configuration passes if and only if none of the six checks is violated |
| `Configuration.PassedBoundsAreOrdered` | turn/src/main/java/cdflynn/android/library/turn/TurnLayoutManager.java:572-575 | a built configuration has 0 ≤ minAlpha ≤ maxAlpha ≤ 1 and 0 ≤ minScale ≤ maxScale ≤ Float.MAX_VALUE |
| `Layout.TurnLayoutManager.constructor` | turn/src/main/java/cdflynn/android/library/turn/TurnLayoutManager.java:177-188 | defaults: START, rotate off, radius 0, peek 0, centre (0,0), all four bounds 1 |
| `Layout.TurnLayoutManager.SetRadius` | turn/src/main/java/cdflynn/android/library/turn/TurnLayoutManager.java:190-193 | stores `max(radius, 0)`, leaves the peek untouched, and keeps radius and peek non-negative |
| `Layout.TurnLayoutManager.SetPeekDistance` | turn/src/main/java/cdflynn/android/library/turn/TurnLayoutManager.java:195-198 | stores the clamped peek, so 0 ≤ peek ≤ radius holds right after the call |
| `Layout.TurnLayoutManager.SetGravity` | turn/src/main/java/cdflynn/android/library/turn/TurnLayoutManager.java:200-203 | stores the gravity and changes no other field |
| `Layout.TurnLayoutManager.SetRotate` | turn/src/main/java/cdflynn/android/library/turn/TurnLayoutManager.java:205-208 | stores the flag and changes no other field |
| `Layout.TurnLayoutManager.SetMinScale` | turn/src/main/java/cdflynn/android/library/turn/TurnLayoutManager.java:210-213 | stores the value unchecked and changes no other field |
| `Layout.TurnLayoutManager.SetMaxScale` | turn/src/main/java/cdflynn/android/library/turn/TurnLayoutManager.java:215-218 | stores the value unchecked and changes no other field |
| `Layout.TurnLayoutManager.SetMinAlpha` | turn/src/main/java/cdflynn/android/library/turn/TurnLayoutManager.java:220-223 | stores the value unchecked and changes no other field |
| `Layout.TurnLayoutManager.SetMaxAlpha` | turn/src/main/java/cdflynn/android/library/turn/TurnLayoutManager.java:225-228 | stores the value unchecked and changes no other field |
| `Layout.TurnLayoutManager.SetOrientation` | turn/src/main/java/cdflynn/android/library/turn/TurnLayoutManager.java:230-234 | stores the orientation and changes no other field |
| `Layout.TurnLayoutManager.SetChildOffsets` | turn/src/main/java/cdflynn/android/library/turn/TurnLayoutManager.java:316-326 | the loop rewrites the child array in place into the whole-pass result `PlaceAll` of its old contents; only the array is modified |
| `Layout.TurnLayoutManager.OnLayoutChildren` | turn/src/main/java/cdflynn/android/library/turn/TurnLayoutManager.java:250-255 | recomputes the centre from the current configuration and viewport, then transforms every child around that new centre |
| `Layout.TurnLayoutManager.ScrollVerticallyBy` | turn/src/main/java/cdflynn/android/library/turn/TurnLayoutManager.java:236-241 | returns the linear layout's scrolled amount unchanged, leaves the manager (the centre included) unchanged, and runs the vertical transform around the cached centre |
| `Layout.TurnLayoutManager.ScrollHorizontallyBy` | turn/src/main/java/cdflynn/android/library/turn/TurnLayoutManager.java:243-248 | the same, for the horizontal transform; so any number of scroll passes leaves the centre where the last layout put it |
| `Layout.Builder.constructor` | turn/src/main/java/cdflynn/android/library/turn/TurnLayoutManager.java:523-525 | wraps a fresh VERTICAL manager with default settings |
| `Layout.Builder.SetRadius` | turn/src/main/java/cdflynn/android/library/turn/TurnLayoutManager.java:527-530 | delegates to the manager's clamping `setRadius` |
| `Layout.Builder.SetPeekDistance` | turn/src/main/java/cdflynn/android/library/turn/TurnLayoutManager.java:532-535 | delegates to the manager's clamping `setPeekDistance` |
| `Layout.Builder.SetGravity` | turn/src/main/java/cdflynn/android/library/turn/TurnLayoutManager.java:537-540 | delegates to the manager's `setGravity` |
| `Layout.Builder.SetOrientation` | turn/src/main/java/cdflynn/android/library/turn/TurnLayoutManager.java:542-545 | delegates to the manager's `setOrientation` |
| `Layout.Builder.SetRotate` | turn/src/main/java/cdflynn/android/library/turn/TurnLayoutManager.java:547-550 | delegates to the manager's `setRotate` |
| `Layout.Builder.SetMinScale` | turn/src/main/java/cdflynn/android/library/turn/TurnLayoutManager.java:552-555 | writes the manager's field directly, without clamping |
| `Layout.Builder.SetMaxScale` | turn/src/main/java/cdflynn/android/library/turn/TurnLayoutManager.java:557-560 | writes the manager's field directly, without clamping |
| `Layout.Builder.SetMinAlpha` | turn/src/main/java/cdflynn/android/library/turn/TurnLayoutManager.java:562-565 | writes the manager's field directly, without clamping |
| `Layout.Builder.SetMaxAlpha` | turn/src/main/java/cdflynn/android/library/turn/TurnLayoutManager.java:567-570 | writes the manager's field directly, without clamping |
| `Layout.Builder.Build` | turn/src/main/java/cdflynn/android/library/turn/TurnLayoutManager.java:572-596 | returns the wrapped manager itself exactly when `assertInputs` passes; otherwise returns the first failing check as the error |
| `Layout.ShrinkingRadiusKeepsPeek` | turn/src/main/java/cdflynn/android/library/turn/TurnLayoutManager.java:190-198 | radius 100, then peek 80, then radius 50 leaves peek 80 > radius 50 |
| `Layout.BuilderRejectsInvertedAlpha` | turn/src/main/java/cdflynn/android/library/turn/TurnLayoutManager.java:590-592 | a builder with minAlpha 0.2 and maxAlpha 0.1 fails with the min-alpha-above-max-alpha error, whose message reads "Max alpha cannot be higher than min alpha." |
| `Layout.BuilderReportsFirstFailure` | turn/src/main/java/cdflynn/android/library/turn/TurnLayoutManager.java:578-583 | with several checks violated, the earliest check in the order is reported |

## Findings

| source | as written | input that shows it | evidently intended | confidence | as-written member | corrected member |
|---|---|---|---|---|---|---|
| turn/src/main/java/cdflynn/android/library/turn/TurnLayoutManager.java:163-164 | the deprecated public constructor clamps the peek against its raw `radius` argument, not against the radius it has just clamped | `new TurnLayoutManager(context, -1, 0)`: radius is stored as 0 but peekDistance as −1 | the peek is clamped to [0, radius] against the clamped radius, as the constructor documentation at lines 136-137 says and as the private constructor at lines 180-181 does; the deprecated private constructor at line 151 has the same slip | high; not executed | `Configuration.LegacyConstructorPeek` | `Configuration.InitialPeek` |

## Left out

- The host framework is not modelled. This covers the RecyclerView, view recycling, and `requestLayout()`. The setters' re-layout request is not represented.
- The viewport size and the attached children are parameters of each pass. They are not read from a host.
- The `LinearLayoutManager` superclass is not modelled. `super.onLayoutChildren` and `super.scroll*By` are assumed to have positioned the children along the scroll axis before the pass. The amount `super.scroll*By` reports is the `consumed` parameter.
- `super.setOrientation` is not modelled, including its rejection of values other than VERTICAL and HORIZONTAL. Orientation and gravity are two-valued datatypes, as the `@IntDef` annotations restrict them.
- `Math.asin` and `Math.toDegrees` are not computed. A rotation is kept as its sign, opposite and radius.
- Float and double rounding is not modelled: values are exact reals and integers. This includes the rounding of `Math.sqrt` for radicands beyond 2^53, and the NaN and −0.0 ordering of `Float.compare`. A min/max value that is NaN or infinite is not representable.
- 32-bit int overflow is not modelled, for example in `getWidth() - xOffset - child.getWidth() - marginStart`.
- Child translation is not modelled: `getX()` and `getY()` are taken to equal the child's left and top.
- The `getMarginStart` SDK-version branch is not modelled. The start margin is a field of the child record.
- The `center` Point object is reused in place in the source. Here it is a value field that is reassigned. Nothing else holds that Point, so no aliasing is lost.
- The deprecated constructors are not modelled, except the peek arithmetic of the public one (see Findings).
- The sample application (`MainActivity`, `SampleAdapter`) is not modelled.
- Arc.ChildRotation: states the sign and the asin argument of the rotation, not its value in degrees, because `Math.asin` and `Math.toDegrees` are not computed.
- Child.PlaceChildEnvelopeBounds: bounds scale and alpha only on a viewport at least 2 pixels long. On a shorter one the code divides 0 by 0f, and `Attenuation.Envelope` states the resulting NaN.
- Layout.Builder.SetRadius and the other Builder setters: return nothing where the source returns the builder for chaining.
