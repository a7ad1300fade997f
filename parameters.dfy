/*
 * The parameters snapshot of the magic lamp effect: how a reconfiguration
 * turns the configured values into the immutable Parameters record that every
 * animation started afterwards copies.
 *
 * Easing curves are tags: their mathematics belongs to the toolkit and is not
 * part of this model.
 */
module Parameters {

  /** A point of the plane, used for the control points of a Bezier segment. */
  datatype Point = Point(x: real, y: real)

  /** The easing curve types the effect can select. */
  datatype EasingCurve =
    | Linear
    | InOutQuad
    | InOutCubic
    | InOutQuart
    | InOutQuint
    | InOutSine
    | InOutCirc
    | InOutBounce
      /** A spline made of one cubic Bezier segment from (0, 0). */
    | BezierSpline(control1: Point, control2: Point, endPoint: Point)

  /** The one Bezier segment the effect ever builds: (0.3, 0.0), (0.7, 1.0), (1.0, 1.0). */
  const LampBezier: EasingCurve := BezierSpline(Point(0.3, 0.0), Point(0.7, 1.0), Point(1.0, 1.0))

  /** The curves a reconfiguration can produce. */
  predicate Selectable(c: EasingCurve)
  {
    !c.BezierSpline? || c == LampBezier
  }

  /** The configured values a reconfiguration reads. `baseDuration` is in
      milliseconds and already scaled by the global animation speed. */
  datatype Config = Config(
    shapeCurve: int,
    baseDuration: int,
    initialShapeFactor: real,
    maxBumpDistance: int,
    gridResolution: int)

  /** The snapshot handed to every animation; durations in milliseconds. */
  datatype Parameters = Parameters(
    shapeCurve: EasingCurve,
    squashDuration: int,
    stretchDuration: int,
    bumpDuration: int,
    shapeFactor: real,
    bumpDistance: int)

  /** The value of the ShapeCurve enumerator that names curve `c`. */
  function Selector(c: EasingCurve): (s: int)
    ensures 0 <= s <= 8
  {
    match c
    case Linear => 0
    case InOutQuad => 1
    case InOutCubic => 2
    case InOutQuart => 3
    case InOutQuint => 4
    case InOutSine => 5
    case InOutCirc => 6
    case InOutBounce => 7
    case BezierSpline(_, _, _) => 8
  }

  /** The curve chosen by a configured selector; unknown selectors fall back
      to the sine curve. */
  function CurveForSelector(selector: int): (c: EasingCurve)
    ensures Selectable(c)
    ensures 0 <= selector <= 8 ==> Selector(c) == selector
    ensures !(0 <= selector <= 8) ==> c == InOutSine
  {
    match selector
    case 0 => Linear
    case 1 => InOutQuad
    case 2 => InOutCubic
    case 3 => InOutQuart
    case 4 => InOutQuint
    case 5 => InOutSine
    case 6 => InOutCirc
    case 7 => InOutBounce
    case 8 => LampBezier
    case _ => InOutSine
  }

  /** Every curve the effect can select is reached from its own enumerator. */
  lemma CurveRoundTrip(c: EasingCurve)
    requires Selectable(c)
    ensures CurveForSelector(Selector(c)) == c
  {
  }

  /** Two selectors give the same curve only when they are equal or both
      fall back to the sine curve. */
  lemma CurveForSelectorInjective(s1: int, s2: int)
    requires CurveForSelector(s1) == CurveForSelector(s2)
    ensures s1 == s2 || (CurveForSelector(s1) == InOutSine && (s1 == 5 || !(0 <= s1 <= 8)) && (s2 == 5 || !(0 <= s2 <= 8)))
  {
  }

  /** 0.7 * base rounded to the nearest integer, halves away from zero. */
  function RoundedSevenTenths(base: int): (r: int)
    ensures -5 <= 10 * r - 7 * base <= 5
    ensures 10 * r - 7 * base == 5 ==> base > 0
    ensures 10 * r - 7 * base == -5 ==> base < 0
  {
    if base >= 0 then (7 * base + 5) / 10 else -((-7 * base + 5) / 10)
  }

  /** The nearest-integer conditions above leave only one candidate. */
  lemma RoundingIsUnique(base: int, r: int)
    requires -5 <= 10 * r - 7 * base <= 5
    requires 10 * r - 7 * base == 5 ==> base > 0
    requires 10 * r - 7 * base == -5 ==> base < 0
    ensures r == RoundedSevenTenths(base)
  {
  }

  /** The stretch phase lasts 70% of the base duration, rounded, and never
      less than one millisecond. */
  function StretchDuration(base: int): (r: int)
    ensures r >= 1
    ensures r == 1 || -5 <= 10 * r - 7 * base <= 5
    ensures base >= 1 ==> -5 <= 10 * r - 7 * base <= 5
    ensures base >= 1 ==> r <= base
  {
    var rounded := RoundedSevenTenths(base);
    if rounded > 1 then rounded else 1
  }

  /** A longer base duration never gives a shorter stretch phase. */
  lemma StretchDurationMonotonic(b1: int, b2: int)
    requires b1 <= b2
    ensures StretchDuration(b1) <= StretchDuration(b2)
  {
  }

  /** The snapshot a reconfiguration builds from the configured values. */
  function ParametersFor(config: Config): (p: Parameters)
    ensures p.squashDuration == config.baseDuration && p.bumpDuration == config.baseDuration
    ensures p.stretchDuration >= 1
    ensures config.baseDuration >= 1 ==> p.stretchDuration <= p.squashDuration
    ensures Selectable(p.shapeCurve)
    ensures 0 <= config.shapeCurve <= 8 ==> Selector(p.shapeCurve) == config.shapeCurve
    ensures !(0 <= config.shapeCurve <= 8) ==> p.shapeCurve == InOutSine
    ensures p.shapeFactor == config.initialShapeFactor && p.bumpDistance == config.maxBumpDistance
  {
    Parameters(
      CurveForSelector(config.shapeCurve),
      config.baseDuration,
      StretchDuration(config.baseDuration),
      config.baseDuration,
      config.initialShapeFactor,
      config.maxBumpDistance)
  }
}
