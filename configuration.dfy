/**
 * The manager's configuration rules: how the radius and peek setters clamp
 * their arguments, and the checks Builder.build() runs, in order, before it
 * hands out a manager.
 */
module Configuration {

  const MIN_RADIUS: int := 0
  const MIN_PEEK: int := 0

  /** Float.MAX_VALUE, the largest finite Java float. */
  const FLOAT_MAX: real := 340282346638528859811704183484516925440.0

  /** setRadius: a negative radius is raised to MIN_RADIUS, anything else is kept. */
  function ClampRadius(radius: int): (r: int)
    ensures r >= MIN_RADIUS && r >= radius
    ensures r == radius || r == MIN_RADIUS
  {
    if radius > MIN_RADIUS then radius else MIN_RADIUS
  }

  /**
   * setPeekDistance: the peek is raised to MIN_PEEK and then lowered to the
   * radius it is given.
   */
  function ClampPeek(peek: int, radius: int): (p: int)
    ensures p <= radius
    ensures radius >= MIN_PEEK ==> MIN_PEEK <= p
    ensures MIN_PEEK <= peek <= radius ==> p == peek
    ensures radius >= MIN_PEEK && peek >= radius ==> p == radius
    ensures radius >= MIN_PEEK && peek <= MIN_PEEK ==> p == MIN_PEEK
  {
    var raised := if peek > MIN_PEEK then peek else MIN_PEEK;
    if raised < radius then raised else radius
  }

  /**
   * The peek the deprecated public constructor stores: it clamps against the
   * raw `radius` argument, not against the radius it has just clamped.
   */
  function LegacyConstructorPeek(radius: int, peek: int): (p: int)
    ensures p <= radius
    ensures radius < MIN_PEEK ==> p == radius
  {
    ClampPeek(peek, radius)
  }

  /** With a negative radius argument the deprecated constructor stores a negative peek. */
  lemma LegacyConstructorPeekNegative()
    ensures ClampRadius(-1) == 0
    ensures LegacyConstructorPeek(-1, 0) == -1
  {
  }

  /**
   * The peek the constructor documents, "clamped to [0, radius]", taken
   * against the clamped radius, as setRadius followed by setPeekDistance gives.
   */
  function InitialPeek(radius: int, peek: int): (p: int)
    ensures MIN_PEEK <= p <= ClampRadius(radius)
    ensures MIN_PEEK <= peek <= radius ==> p == peek
  {
    ClampPeek(peek, ClampRadius(radius))
  }

  /** The reasons Builder.build() throws IllegalArgumentException. */
  datatype ConfigError =
    | MinAlphaBelowZero
    | MaxAlphaAboveOne
    | MinScaleBelowZero
    | MaxScaleTooBig
    | MinAlphaAboveMaxAlpha
    | MinScaleAboveMaxScale

  /** The exception message of each check, as the builder words it. */
  function Message(e: ConfigError): string
  {
    match e
    case MinAlphaBelowZero => "Min alpha cannot be lower than zero."
    case MaxAlphaAboveOne => "Max alpha cannot be higher than one."
    case MinScaleBelowZero => "Min scale cannot be lower than zero."
    case MaxScaleTooBig => "Max scale value is too big."
    case MinAlphaAboveMaxAlpha => "Max alpha cannot be higher than min alpha."
    case MinScaleAboveMaxScale => "Max scale cannot be higher than min scale."
  }

  /** Each check has its own message, so the message tells which check failed. */
  lemma MessageIdentifiesCheck(e1: ConfigError, e2: ConfigError)
    ensures Message(e1) == Message(e2) ==> e1 == e2
  {
    // Length, second and fifth character tell the six messages apart.
    var m1, m2 := Message(e1), Message(e2);
    if m1 == m2 {
      assert |m1| == |m2| && m1[1] == m2[1] && m1[4] == m2[4];
    }
  }

  /** Whether the condition behind `e` holds of the four bounds. */
  predicate Violated(e: ConfigError, minAlpha: real, maxAlpha: real, minScale: real, maxScale: real)
  {
    match e
    case MinAlphaBelowZero => minAlpha < 0.0
    case MaxAlphaAboveOne => maxAlpha > 1.0
    case MinScaleBelowZero => minScale < 0.0
    case MaxScaleTooBig => maxScale > FLOAT_MAX
    case MinAlphaAboveMaxAlpha => minAlpha > maxAlpha
    case MinScaleAboveMaxScale => minScale > maxScale
  }

  /** The position of each check in assertInputs. */
  function Rank(e: ConfigError): nat
  {
    match e
    case MinAlphaBelowZero => 0
    case MaxAlphaAboveOne => 1
    case MinScaleBelowZero => 2
    case MaxScaleTooBig => 3
    case MinAlphaAboveMaxAlpha => 4
    case MinScaleAboveMaxScale => 5
  }

  datatype Outcome = Pass | Fail(error: ConfigError)

  /**
   * Builder.assertInputs: the checks run in a fixed order and the first one
   * that fails is reported; when none fails the configuration passes.
   */
  function AssertInputs(minAlpha: real, maxAlpha: real, minScale: real, maxScale: real): (r: Outcome)
    ensures r.Fail? ==> Violated(r.error, minAlpha, maxAlpha, minScale, maxScale)
    ensures r.Fail? ==> forall e :: Rank(e) < Rank(r.error) ==> !Violated(e, minAlpha, maxAlpha, minScale, maxScale)
  {
    if minAlpha < 0.0 then Fail(MinAlphaBelowZero)
    else if maxAlpha > 1.0 then Fail(MaxAlphaAboveOne)
    else if minScale < 0.0 then Fail(MinScaleBelowZero)
    else if maxScale > FLOAT_MAX then Fail(MaxScaleTooBig)
    else if minAlpha > maxAlpha then Fail(MinAlphaAboveMaxAlpha)
    else if minScale > maxScale then Fail(MinScaleAboveMaxScale)
    else Pass
  }

  /** A configuration passes exactly when none of the checks is violated. */
  lemma AssertInputsPassExactly(minAlpha: real, maxAlpha: real, minScale: real, maxScale: real)
    ensures AssertInputs(minAlpha, maxAlpha, minScale, maxScale).Pass?
            <==> forall e :: !Violated(e, minAlpha, maxAlpha, minScale, maxScale)
  {
    var r := AssertInputs(minAlpha, maxAlpha, minScale, maxScale);
    if r.Pass? {
      forall e ensures !Violated(e, minAlpha, maxAlpha, minScale, maxScale) {
        match e
        case MinAlphaBelowZero =>
        case MaxAlphaAboveOne =>
        case MinScaleBelowZero =>
        case MaxScaleTooBig =>
        case MinAlphaAboveMaxAlpha =>
        case MinScaleAboveMaxScale =>
      }
    }
  }

  /**
   * A configuration that passes has its alpha bounds ordered within [0, 1]
   * and its scale bounds ordered and non-negative: the envelopes the layout
   * pass relies on.
   */
  lemma PassedBoundsAreOrdered(minAlpha: real, maxAlpha: real, minScale: real, maxScale: real)
    requires AssertInputs(minAlpha, maxAlpha, minScale, maxScale).Pass?
    ensures 0.0 <= minAlpha <= maxAlpha <= 1.0
    ensures 0.0 <= minScale <= maxScale <= FLOAT_MAX
  {
    assert !Violated(MinAlphaBelowZero, minAlpha, maxAlpha, minScale, maxScale);
    assert !Violated(MaxAlphaAboveOne, minAlpha, maxAlpha, minScale, maxScale);
    assert !Violated(MinScaleBelowZero, minAlpha, maxAlpha, minScale, maxScale);
    assert !Violated(MaxScaleTooBig, minAlpha, maxAlpha, minScale, maxScale);
    assert !Violated(MinAlphaAboveMaxAlpha, minAlpha, maxAlpha, minScale, maxScale);
    assert !Violated(MinScaleAboveMaxScale, minAlpha, maxAlpha, minScale, maxScale);
  }
}
