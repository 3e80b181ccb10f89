/**
 * The range helpers of lib/rnbo/mapping.js. Its `clamp` is the one of
 * lib/bridge/filters.js, modelled as Filters.Clamp.
 */
module RnboMapping {
  import opened Wrappers
  import opened JsNumbers
  import opened Filters

  /** lerp(a, b, t): the point a fraction t of the way from a to b. */
  function Lerp(a: real, b: real, t: real): (r: real)
    ensures t == 0.0 ==> r == a
    ensures t == 1.0 ==> r == b
    ensures 0.0 <= t <= 1.0 ==> Min(a, b) <= r <= Max(a, b)
  {
    LerpBounds(a, b, t);
    a + (b - a) * t
  }

  lemma LerpBounds(a: real, b: real, t: real)
    ensures 0.0 <= t <= 1.0 ==> Min(a, b) <= a + (b - a) * t <= Max(a, b)
  {
    if 0.0 <= t <= 1.0 {
      StepBetween(a, b, t);
    }
  }

  /** inverseLerp(a, b, v): 0 for an empty interval, otherwise the fraction that lerp turns back into v. */
  function InverseLerp(a: real, b: real, v: real): (r: real)
    ensures a == b ==> r == 0.0
    ensures a != b ==> Lerp(a, b, r) == v
  {
    if a == b then 0.0 else (v - a) / (b - a)
  }

  /** inverseLerp undoes lerp on a non-empty interval. */
  lemma InverseLerpOfLerp(a: real, b: real, t: real)
    requires a != b
    ensures InverseLerp(a, b, Lerp(a, b, t)) == t
  {
    var v := Lerp(a, b, t);
    assert v - a == (b - a) * t;
  }

  /**
   * mapRange(inMin, inMax, outMin, outMax, v): v's position in the input range,
   * clamped to [0, 1], carried to the output range; never outside it.
   */
  function MapRange(inMin: real, inMax: real, outMin: real, outMax: real, v: real): (r: real)
    ensures Min(outMin, outMax) <= r <= Max(outMin, outMax)
    ensures inMin != inMax && v == inMin ==> r == outMin
    ensures inMin != inMax && v == inMax ==> r == outMax
    ensures inMin == inMax ==> r == outMin
  {
    var t := Clamp(Finite(InverseLerp(inMin, inMax, v)), 0.0, 1.0);
    Lerp(outMin, outMax, t)
  }

  /** Inside the input range mapRange is the plain linear map. */
  lemma MapRangeInside(inMin: real, inMax: real, outMin: real, outMax: real, v: real)
    requires inMin < inMax && inMin <= v <= inMax
    ensures MapRange(inMin, inMax, outMin, outMax, v) == Lerp(outMin, outMax, InverseLerp(inMin, inMax, v))
  {
    var t := InverseLerp(inMin, inMax, v);
    assert t == (v - inMin) / (inMax - inMin);
    DivInUnit(v - inMin, inMax - inMin);
  }

  lemma DivInUnit(x: real, y: real)
    requires 0.0 <= x <= y && y > 0.0
    ensures 0.0 <= x / y <= 1.0
  {}

  /**
   * mirroredAngle01(degrees): the angle wrapped to [0, 360), folded at 180 and
   * scaled: 0..180 rises from 0 to 1, 180..360 falls back to 0.
   */
  function MirroredAngle01(degrees: real): (r: real)
    ensures 0.0 <= r <= 1.0
    ensures degrees == 0.0 ==> r == 0.0
    ensures degrees == 180.0 ==> r == 1.0
  {
    var w := Wrap360(degrees);
    Wrap360Unique(180.0, 180.0, 0);
    Wrap360Unique(0.0, 0.0, 0);
    var mirrored := if w <= 180.0 then w else 360.0 - w;
    mirrored / 180.0
  }

  /** mirroredAngle01 of null: JavaScript's `null % 360` is 0, so the result is 0. */
  function MirroredAngle01OrNull(degrees: Option<real>): (r: real)
    ensures 0.0 <= r <= 1.0
    ensures degrees.None? ==> r == 0.0
    ensures degrees.Some? ==> r == MirroredAngle01(degrees.value)
  {
    MirroredAngle01(degrees.GetOr(0.0))
  }

  /** The ramp repeats every 360 degrees and is mirror-symmetric: f(d) == f(-d) == f(360 - d). */
  lemma MirroredAngleSymmetries(d: real)
    ensures MirroredAngle01(d + 360.0) == MirroredAngle01(d)
    ensures MirroredAngle01(-d) == MirroredAngle01(d)
    ensures MirroredAngle01(360.0 - d) == MirroredAngle01(d)
  {
    Wrap360Shift(d);
    Wrap360Negate(d);
    Wrap360Shift(-d);
    assert 360.0 - d == -d + 360.0;
  }
}
