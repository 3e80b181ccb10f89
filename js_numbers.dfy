/**
 * JavaScript numbers as the motion pipeline uses them. Finite numbers are reals;
 * IEEE rounding is not modelled. The Math functions the pipeline calls are passed
 * in as a record of function values, constrained only by the laws in `Lawful`.
 */
module JsNumbers {
  import opened Wrappers

  /**
   * A JavaScript value as seen by `typeof v === "number"` and `Number.isFinite(v)`.
   * `NonNumber` is a value whose type is not number and which `Number(...)`
   * converts to NaN or 0 (undefined, null, an object, a non-numeric string).
   */
  datatype Num = NonNumber | NaN | PosInfinity | NegInfinity | Finite(r: real)

  /** `typeof v === "number"` */
  predicate IsNumber(v: Num) {
    !v.NonNumber?
  }

  /** `Number.isFinite(v)`, keeping the value: Some for a finite number, None otherwise. */
  function FiniteValue(v: Num): (r: Option<real>)
    ensures r.Some? <==> v.Finite?
    ensures r.Some? ==> v == Finite(r.value)
  {
    if v.Finite? then Some(v.r) else None
  }

  /** `Math.PI` */
  const PI: real := 3.141592653589793

  function Min(a: real, b: real): real {
    if a <= b then a else b
  }

  function Max(a: real, b: real): real {
    if a >= b then a else b
  }

  /**
   * `a / b` for finite a and b: None when the quotient is not finite
   * (a zero divisor gives Infinity or NaN).
   */
  function Div(a: real, b: real): (r: Option<real>)
    ensures r.None? <==> b == 0.0
    ensures r.Some? ==> r.value * b == a
  {
    if b == 0.0 then None else Some(a / b)
  }

  /** `Math.round(x)`: the nearest integer, halves rounded up. */
  function Round(x: real): (r: int)
    ensures (r as real) - 0.5 <= x < (r as real) + 0.5
  {
    (x + 0.5).Floor
  }

  /** `Number.isInteger(x)` for a finite x. */
  predicate IsInteger(x: real) {
    x.Floor as real == x
  }

  /** `Math.trunc(x)`: the integer part, rounded toward zero. */
  function Trunc(x: real): (r: int)
    ensures x >= 0.0 ==> 0 <= r && r as real <= x < r as real + 1.0
    ensures x < 0.0 ==> r <= 0 && r as real - 1.0 < x <= r as real
  {
    if x >= 0.0 then x.Floor else -((-x).Floor)
  }

  /** The JavaScript remainder `a % 360`: it takes the sign of `a`. */
  function Rem360(a: real): (r: real)
    ensures -360.0 < r < 360.0
    ensures a >= 0.0 ==> r >= 0.0
    ensures a < 0.0 ==> r <= 0.0
    ensures a - r == 360.0 * (Trunc(a / 360.0) as real)
  {
    a - 360.0 * (Trunc(a / 360.0) as real)
  }

  /**
   * `((d % 360) + 360) % 360`, the wrapping both `to360` and `mirroredAngle01` use:
   * it is the remainder of d modulo 360 taken in [0, 360).
   */
  function Wrap360(d: real): (w: real)
    ensures 0.0 <= w < 360.0
    ensures w == d - 360.0 * ((d / 360.0).Floor as real)
  {
    var r := Rem360(d);
    var w := Rem360(r + 360.0);
    WrapIsFloorMod(d, r, w);
    w
  }

  lemma WrapIsFloorMod(d: real, r: real, w: real)
    requires r == Rem360(d) && w == Rem360(r + 360.0)
    ensures w == d - 360.0 * ((d / 360.0).Floor as real)
  {
    var t := Trunc(d / 360.0);
    assert d - r == 360.0 * (t as real);
    var u := Trunc((r + 360.0) / 360.0);
    assert r + 360.0 - w == 360.0 * (u as real);
    assert 0.0 <= w < 360.0;
    // w == d + 360 * (1 - t - u), and w lies in [0, 360): so 1 - t - u is minus d's floor quotient.
    var k := t + u - 1;
    assert w == d - 360.0 * (k as real);
    assert k as real <= d / 360.0 < k as real + 1.0;
    assert (d / 360.0).Floor == k;
  }

  /** Wrap360 is the only value in [0, 360) that differs from d by a multiple of 360. */
  lemma Wrap360Unique(d: real, w: real, k: int)
    requires 0.0 <= w < 360.0 && w == d - 360.0 * (k as real)
    ensures Wrap360(d) == w
  {
    assert d / 360.0 == w / 360.0 + (k as real);
    assert k as real <= d / 360.0 < k as real + 1.0;
    assert (d / 360.0).Floor == k;
  }

  /** Wrapping has period 360. */
  lemma Wrap360Shift(d: real)
    ensures Wrap360(d + 360.0) == Wrap360(d)
  {
    var k := (d / 360.0).Floor;
    Wrap360Unique(d + 360.0, Wrap360(d), k + 1);
  }

  /** Wrapping the opposite angle gives the complement to 360 (and 0 stays 0). */
  lemma Wrap360Negate(d: real)
    ensures Wrap360(-d) == if Wrap360(d) == 0.0 then 0.0 else 360.0 - Wrap360(d)
  {
    var k := (d / 360.0).Floor;
    var w := Wrap360(d);
    if w == 0.0 {
      Wrap360Unique(-d, 0.0, -k);
    } else {
      Wrap360Unique(-d, 360.0 - w, -k - 1);
    }
  }

  /**
   * a * a. The second factor is written through `Same` so that the product stays
   * a product of two terms, to which `SquareFacts` applies.
   */
  function Square(a: real): real {
    a * Same(a)
  }

  function Same(a: real): real {
    a
  }

  /** A square is never negative, and is positive away from zero. */
  lemma SquareFacts(a: real)
    ensures Square(a) >= 0.0
    ensures a != 0.0 ==> Square(a) > 0.0
  {
    if a > 0.0 {
      MulPositive(a, Same(a));
    } else if a < 0.0 {
      MulPositive(-a, -Same(a));
      assert (-a) * (-Same(a)) == a * Same(a);
    }
  }

  lemma MulPositive(a: real, b: real)
    requires a > 0.0 && b > 0.0
    ensures a * b > 0.0
  {}

  /**
   * The Math functions the pipeline calls, passed in because their floating-point
   * definitions are outside the model.
   */
  datatype MathFns = MathFns(
    exp: real -> real,
    sqrt: real -> real,
    acos: real -> real,
    asin: real -> real,
    sin: real -> real,
    cos: real -> real,
    atan2: (real, real) -> real)

  /** The few facts about the Math functions that the pipeline relies on. */
  ghost predicate Lawful(m: MathFns) {
    && m.exp(0.0) == 1.0
    && (forall d :: d <= 0.0 ==> 0.0 < m.exp(d) <= 1.0)
    && (forall d :: d < 0.0 ==> m.exp(d) < 1.0)
    && (forall x :: 0.0 <= x ==> 0.0 <= m.sqrt(x) && Square(m.sqrt(x)) == x)
    && m.acos(1.0) == 0.0
    && (forall x :: -1.0 <= x <= 1.0 ==> 0.0 <= m.acos(x) <= PI)
    && (forall x :: 0.0 <= x <= 1.0 ==> m.acos(x) <= PI / 2.0)
    && (forall x :: -1.0 <= x <= 1.0 ==> -PI / 2.0 <= m.asin(x) <= PI / 2.0)
    && (forall y, x :: -PI < m.atan2(y, x) <= PI)
    && m.asin(0.0) == 0.0
    && m.atan2(0.0, 1.0) == 0.0
    && m.sin(0.0) == 0.0
    && m.cos(0.0) == 1.0
  }
}
