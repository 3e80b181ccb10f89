/**
 * Quaternion algebra on (x, y, z, w) tuples, w being the scalar part
 * (lib/sensors/math/quaternion.js). The laws below hold exactly over the reals.
 */
module Quaternion {
  import opened Wrappers
  import opened JsNumbers

  datatype Quat = Quat(x: real, y: real, z: real, w: real)

  const Identity: Quat := Quat(0.0, 0.0, 0.0, 1.0)

  /** degToRad: the angle keeps its fraction of a half turn (180 degrees is PI radians). */
  function DegToRad(deg: real): (r: real)
    ensures r * 180.0 == deg * PI
    ensures deg == 0.0 ==> r == 0.0
  {
    (deg * PI) / 180.0
  }

  /** quatMultiply: the Hamilton product a * b, components in (x, y, z, w) order. */
  function Multiply(a: Quat, b: Quat): (r: Quat) {
    Quat(
      a.w * b.x + a.x * b.w + a.y * b.z - a.z * b.y,
      a.w * b.y - a.x * b.z + a.y * b.w + a.z * b.x,
      a.w * b.z + a.x * b.y - a.y * b.x + a.z * b.w,
      a.w * b.w - a.x * b.x - a.y * b.y - a.z * b.z)
  }

  /** The identity quaternion is a unit of the Hamilton product on both sides. */
  lemma MultiplyIdentity(q: Quat)
    ensures Multiply(Identity, q) == q
    ensures Multiply(q, Identity) == q
  {}

  /** quatConjugate: the vector part negated, the scalar part kept. */
  function Conjugate(q: Quat): (r: Quat)
    ensures r.w == q.w
    ensures NormSquared(r) == NormSquared(q)
  {
    Quat(-q.x, -q.y, -q.z, q.w)
  }

  const Zero: Quat := Quat(0.0, 0.0, 0.0, 0.0)

  /** quatNormSquared: the sum of the squares of the four components. */
  function NormSquared(q: Quat): (r: real)
    ensures r >= 0.0
  {
    SquareFacts(q.x);
    SquareFacts(q.y);
    SquareFacts(q.z);
    SquareFacts(q.w);
    Square(q.x) + Square(q.y) + Square(q.z) + Square(q.w)
  }

  /** The squared norm vanishes exactly at the zero quaternion. */
  lemma NormSquaredZero(q: Quat)
    ensures NormSquared(q) == 0.0 <==> q == Zero
  {
    SquareFacts(q.x);
    SquareFacts(q.y);
    SquareFacts(q.z);
    SquareFacts(q.w);
  }

  /**
   * quatInverse: None (the source's null) exactly for the zero quaternion, whose
   * squared norm is 0; otherwise the conjugate divided by the squared norm.
   */
  function Inverse(q: Quat): (r: Option<Quat>)
    ensures r.None? <==> q == Zero
  {
    // `!n2`: by NormSquaredZero, the squared norm is 0 exactly at the zero quaternion.
    NormSquaredZero(q);
    if q == Zero then None
    else
      var n2 := NormSquared(q);
      var c := Conjugate(q);
      Some(Quat(c.x / n2, c.y / n2, c.z / n2, c.w / n2))
  }

  /** A non-null inverse cancels q under the Hamilton product, on both sides. */
  lemma InverseIsTwoSided(q: Quat)
    requires q != Zero
    ensures Inverse(q).Some?
    ensures Multiply(q, Inverse(q).value) == Identity
    ensures Multiply(Inverse(q).value, q) == Identity
  {
    NormSquaredZero(q);
    InverseCancels(q, NormSquared(q), Inverse(q).value);
  }

  /** For a unit quaternion the inverse is the conjugate. */
  lemma InverseOfUnit(q: Quat)
    requires NormSquared(q) == 1.0
    ensures Inverse(q) == Some(Conjugate(q))
  {
    NormSquaredZero(q);
  }

  /** The product of q with its conjugate scaled by 1/|q|^2, on both sides, is the identity. */
  lemma InverseCancels(q: Quat, n2: real, inv: Quat)
    requires n2 == NormSquared(q) && n2 != 0.0
    requires inv == Quat(-q.x / n2, -q.y / n2, -q.z / n2, q.w / n2)
    ensures Multiply(q, inv) == Identity && Multiply(inv, q) == Identity
  {
    var k := 1.0 / n2;
    assert k * n2 == 1.0;
    var c := Conjugate(q);
    assert inv == ScaleBy(c, k) by {
      DivIsMulInverse(-q.x, n2, k);
      DivIsMulInverse(-q.y, n2, k);
      DivIsMulInverse(-q.z, n2, k);
      DivIsMulInverse(q.w, n2, k);
    }
    ProductWithConjugate(q);
    MultiplyScalesRight(q, c, k);
    MultiplyScalesLeft(c, q, k);
    assert ScaleBy(Quat(0.0, 0.0, 0.0, n2), k) == Identity;
  }

  lemma DivIsMulInverse(a: real, n: real, k: real)
    requires n != 0.0 && k == 1.0 / n
    ensures a / n == a * k
  {}

  /** q * conj(q) == conj(q) * q == (0, 0, 0, |q|^2). */
  lemma ProductWithConjugate(q: Quat)
    ensures Multiply(q, Conjugate(q)) == Quat(0.0, 0.0, 0.0, NormSquared(q))
    ensures Multiply(Conjugate(q), q) == Quat(0.0, 0.0, 0.0, NormSquared(q))
  {}

  function ScaleBy(q: Quat, k: real): Quat {
    Quat(q.x * k, q.y * k, q.z * k, q.w * k)
  }

  /** The Hamilton product is linear in each argument. */
  lemma MultiplyScalesRight(a: Quat, b: Quat, k: real)
    ensures Multiply(a, ScaleBy(b, k)) == ScaleBy(Multiply(a, b), k)
  {
    ScalesRightX(a, b, k);
    ScalesRightY(a, b, k);
    ScalesRightZ(a, b, k);
    ScalesRightW(a, b, k);
  }

  lemma MultiplyScalesLeft(a: Quat, b: Quat, k: real)
    ensures Multiply(ScaleBy(a, k), b) == ScaleBy(Multiply(a, b), k)
  {
    ScalesLeftX(a, b, k);
    ScalesLeftY(a, b, k);
    ScalesLeftZ(a, b, k);
    ScalesLeftW(a, b, k);
  }

  // The same, one component at a time.

  lemma ScalesRightX(a: Quat, b: Quat, k: real)
    ensures Multiply(a, ScaleBy(b, k)).x == Multiply(a, b).x * k
  {}

  lemma ScalesRightY(a: Quat, b: Quat, k: real)
    ensures Multiply(a, ScaleBy(b, k)).y == Multiply(a, b).y * k
  {}

  lemma ScalesRightZ(a: Quat, b: Quat, k: real)
    ensures Multiply(a, ScaleBy(b, k)).z == Multiply(a, b).z * k
  {}

  lemma ScalesRightW(a: Quat, b: Quat, k: real)
    ensures Multiply(a, ScaleBy(b, k)).w == Multiply(a, b).w * k
  {}

  lemma ScalesLeftX(a: Quat, b: Quat, k: real)
    ensures Multiply(ScaleBy(a, k), b).x == Multiply(a, b).x * k
  {}

  lemma ScalesLeftY(a: Quat, b: Quat, k: real)
    ensures Multiply(ScaleBy(a, k), b).y == Multiply(a, b).y * k
  {}

  lemma ScalesLeftZ(a: Quat, b: Quat, k: real)
    ensures Multiply(ScaleBy(a, k), b).z == Multiply(a, b).z * k
  {}

  lemma ScalesLeftW(a: Quat, b: Quat, k: real)
    ensures Multiply(ScaleBy(a, k), b).w == Multiply(a, b).w * k
  {}

  /** Conjugating twice gives the quaternion back. */
  lemma ConjugateInvolutive(q: Quat)
    ensures Conjugate(Conjugate(q)) == q
  {}

  /**
   * The result of quaternionFromDeviceOrientationDegrees. `Rejected` is the
   * source's null (some angle is not of type number). `NonFinite` is the quaternion
   * the source computes when an angle is NaN or infinite: sin and cos of it are NaN,
   * and NaN reaches all four components of the product.
   */
  datatype DeviceQuat = Rejected | NonFinite | Composed(q: Quat)

  /** The rotation by `half * 2` radians about one axis. */
  function AboutZ(half: real, m: MathFns): Quat { Quat(0.0, 0.0, m.sin(half), m.cos(half)) }
  function AboutX(half: real, m: MathFns): Quat { Quat(m.sin(half), 0.0, 0.0, m.cos(half)) }
  function AboutY(half: real, m: MathFns): Quat { Quat(0.0, m.sin(half), 0.0, m.cos(half)) }

  /**
   * quaternionFromDeviceOrientationDegrees: alpha about z, beta about x, gamma about y
   * (degrees), composed as qz * qx * qy. Only `typeof` is checked, so NaN and the
   * infinities are let through.
   */
  function FromDeviceOrientationDegrees(alpha: Num, beta: Num, gamma: Num, m: MathFns): (r: DeviceQuat)
    ensures r.Rejected? <==> !(IsNumber(alpha) && IsNumber(beta) && IsNumber(gamma))
    ensures r.Composed? <==> alpha.Finite? && beta.Finite? && gamma.Finite?
  {
    if !(IsNumber(alpha) && IsNumber(beta) && IsNumber(gamma)) then Rejected
    else if !(alpha.Finite? && beta.Finite? && gamma.Finite?) then NonFinite
    else
      var halfA := DegToRad(alpha.r) / 2.0;
      var halfB := DegToRad(beta.r) / 2.0;
      var halfG := DegToRad(gamma.r) / 2.0;
      Composed(Multiply(Multiply(AboutZ(halfA, m), AboutX(halfB, m)), AboutY(halfG, m)))
  }

  /** All three angles 0 give the identity rotation. */
  lemma ZeroAnglesGiveIdentity(m: MathFns)
    requires Lawful(m)
    ensures FromDeviceOrientationDegrees(Finite(0.0), Finite(0.0), Finite(0.0), m) == Composed(Identity)
  {
    assert AboutZ(0.0, m) == Identity && AboutX(0.0, m) == Identity && AboutY(0.0, m) == Identity;
  }

  /**
   * Each angle turns about its own axis: with the other two angles 0 the result is
   * the single-axis rotation by that angle, so the composition keeps the axis assignment.
   */
  lemma SingleAngleRotations(deg: real, m: MathFns)
    requires Lawful(m)
    ensures FromDeviceOrientationDegrees(Finite(deg), Finite(0.0), Finite(0.0), m) == Composed(AboutZ(DegToRad(deg) / 2.0, m))
    ensures FromDeviceOrientationDegrees(Finite(0.0), Finite(deg), Finite(0.0), m) == Composed(AboutX(DegToRad(deg) / 2.0, m))
    ensures FromDeviceOrientationDegrees(Finite(0.0), Finite(0.0), Finite(deg), m) == Composed(AboutY(DegToRad(deg) / 2.0, m))
  {
    assert AboutZ(0.0, m) == Identity && AboutX(0.0, m) == Identity && AboutY(0.0, m) == Identity;
  }

  /**
   * The order is qz * qx * qy and not the reverse: with beta = 0 the result is
   * qz * qy, whose x component is -sin(a/2) sin(g/2) (the reverse order gives sin(a/2) sin(g/2)).
   */
  lemma ComposesZBeforeY(alpha: real, gamma: real, m: MathFns)
    requires Lawful(m)
    ensures var hA := DegToRad(alpha) / 2.0; var hG := DegToRad(gamma) / 2.0;
      && FromDeviceOrientationDegrees(Finite(alpha), Finite(0.0), Finite(gamma), m) == Composed(Multiply(AboutZ(hA, m), AboutY(hG, m)))
      && Multiply(AboutZ(hA, m), AboutY(hG, m)).x == -m.sin(hA) * m.sin(hG)
      && Multiply(AboutY(hG, m), AboutZ(hA, m)).x == m.sin(hA) * m.sin(hG)
  {
    assert AboutX(0.0, m) == Identity;
  }
}
