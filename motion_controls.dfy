/**
 * The motion controls aggregator of lib/motionMapper/controls.js: orientation
 * relative to a baseline quaternion becomes roll, pitch and yaw in [-1, 1], and the
 * magnitudes of linear acceleration and rotation rate become lin and rot in [0, 1],
 * each through its own exponential smoothing filter.
 */
module Controls {
  import opened Wrappers
  import opened JsNumbers
  import opened Quaternion
  import opened Filters

  /** `Number(v)` for an array element; a value that is not a number is taken as NaN. */
  function ToNumber(v: Num): (n: Num)
    ensures IsNumber(n)
    ensures IsNumber(v) ==> n == v
  {
    if v.NonNumber? then NaN else v
  }

  /**
   * safeQuat(q): the four components when q is an array of length 4 whose
   * elements all convert to finite numbers, and none (null) otherwise. None for
   * the argument stands for a value that is not an array.
   */
  function SafeQuat(q: Option<seq<Num>>): (r: Option<Quat>)
    ensures r.Some? <==> q.Some? && |q.value| == 4 && forall i :: 0 <= i < 4 ==> q.value[i].Finite?
    ensures r.Some? ==> r.value == Quat(q.value[0].r, q.value[1].r, q.value[2].r, q.value[3].r)
  {
    if q.None? || |q.value| != 4 then None
    else
      var out := seq(4, i requires 0 <= i < 4 => ToNumber(q.value[i]));
      if !(forall i :: 0 <= i < 4 ==> out[i].Finite?) then None
      else Some(Quat(out[0].r, out[1].r, out[2].r, out[3].r))
  }

  /** Every component negated: the same rotation as q. */
  function Negate(q: Quat): Quat {
    Quat(-q.x, -q.y, -q.z, -q.w)
  }

  /** ensureShortestQuat: q or -q, whichever has a scalar part w >= 0. */
  function EnsureShortest(q: Quat): (r: Quat)
    ensures r == q || r == Negate(q)
    ensures r.w >= 0.0
    ensures q.w >= 0.0 ==> r == q
  {
    if q.w < 0.0 then Negate(q) else q
  }

  /** The result of quatToRotationVector: axis times angle, and the angle in radians. */
  datatype RotationVector = RotationVector(rx: real, ry: real, rz: real, angleRad: real)

  const NoRotation: RotationVector := RotationVector(0.0, 0.0, 0.0, 0.0)

  /** The threshold below which sin(angle / 2) counts as zero. */
  const Epsilon: real := 0.00000001

  /**
   * quatToRotationVector: for w >= 0 (after ensureShortestQuat) the angle
   * 2 acos(w) lies in [0, PI]; a near-zero rotation is reported as no rotation at all.
   */
  function ToRotationVector(qIn: Quat, m: MathFns): (r: RotationVector)
    requires Lawful(m)
    ensures 0.0 <= r.angleRad <= PI
    ensures r.angleRad == 0.0 ==> r == NoRotation
    ensures qIn == Identity ==> r == NoRotation
    ensures SinHalfAngle(EnsureShortest(qIn), m) < Epsilon ==> r == NoRotation
  {
    ShortestRotationVector(EnsureShortest(qIn), m)
  }

  /** `Math.sqrt(Math.max(0, 1 - clampedW * clampedW))`: sin(angle / 2), never negative. */
  function SinHalfAngle(q: Quat, m: MathFns): (s: real)
    requires Lawful(m)
    ensures 0.0 <= s
  {
    var clampedW := Clamp(Finite(q.w), -1.0, 1.0);
    m.sqrt(Max(0.0, 1.0 - clampedW * clampedW))
  }

  /** The rotation vector of a quaternion whose scalar part is already non-negative. */
  function ShortestRotationVector(q: Quat, m: MathFns): (r: RotationVector)
    requires Lawful(m) && q.w >= 0.0
    ensures 0.0 <= r.angleRad <= PI
    ensures r.angleRad == 0.0 ==> r == NoRotation
    ensures q == Identity ==> r == NoRotation
    ensures SinHalfAngle(q, m) < Epsilon ==> r == NoRotation
  {
    var clampedW := Clamp(Finite(q.w), -1.0, 1.0);
    var angle := 2.0 * m.acos(clampedW);
    var s := SinHalfAngle(q, m);
    if s < Epsilon || angle == 0.0 then NoRotation
    else RotationVector(q.x / s * angle, q.y / s * angle, q.z / s * angle, angle)
  }

  /**
   * q and -q describe one rotation, and give one rotation vector when w is not 0.
   * At w = 0 ensureShortestQuat keeps either sign, so the two vectors are opposite.
   */
  lemma RotationVectorSignInvariant(q: Quat, m: MathFns)
    requires Lawful(m) && q.w != 0.0
    ensures ToRotationVector(Negate(q), m) == ToRotationVector(q, m)
  {
    assert Negate(Negate(q)) == q;
    assert EnsureShortest(Negate(q)) == EnsureShortest(q);
  }

  /**
   * A motion reading: the x/y/z of a Generic Sensor, and the rotation-rate fields
   * alphaRadPerSec/betaRadPerSec/gammaRadPerSec of a DeviceMotionEvent.
   */
  datatype Reading = Reading(x: Num, y: Num, z: Num, alphaRadPerSec: Num, betaRadPerSec: Num, gammaRadPerSec: Num)

  /** The x/y/z branch is taken when any of x, y, z is a number. */
  predicate HasXyz(v: Reading) {
    IsNumber(v.x) || IsNumber(v.y) || IsNumber(v.z)
  }

  /** `Math.sqrt(a * a + b * b + c * c)`: non-negative, and its square is the sum of squares. */
  function Length3(a: real, b: real, c: real, m: MathFns): (r: real)
    requires Lawful(m)
    ensures r >= 0.0
    ensures Square(r) == Square(a) + Square(b) + Square(c)
  {
    SquareFacts(a);
    SquareFacts(b);
    SquareFacts(c);
    m.sqrt(Square(a) + Square(b) + Square(c))
  }

  /**
   * vecMag(v): none for a missing reading; the length of (x, y, z) when any of
   * them is a number, none unless all three are finite; otherwise the length of
   * the rotation rates alpha/beta/gamma, none unless all three are finite.
   */
  function VecMag(v: Option<Reading>, m: MathFns): (r: Option<real>)
    requires Lawful(m)
    ensures v.None? ==> r.None?
    ensures v.Some? && HasXyz(v.value) ==>
      && (r.Some? <==> v.value.x.Finite? && v.value.y.Finite? && v.value.z.Finite?)
      && (r.Some? ==> Square(r.value) == Square(v.value.x.r) + Square(v.value.y.r) + Square(v.value.z.r))
    ensures v.Some? && !HasXyz(v.value) ==>
      && (r.Some? <==> v.value.alphaRadPerSec.Finite? && v.value.betaRadPerSec.Finite? && v.value.gammaRadPerSec.Finite?)
      && (r.Some? ==> Square(r.value) == Square(v.value.alphaRadPerSec.r) + Square(v.value.betaRadPerSec.r) + Square(v.value.gammaRadPerSec.r))
    ensures r.Some? ==> r.value >= 0.0
  {
    if v.None? then None
    else
      var u := v.value;
      if HasXyz(u) then
        if u.x.Finite? && u.y.Finite? && u.z.Finite? then Some(Length3(u.x.r, u.y.r, u.z.r, m)) else None
      else if u.alphaRadPerSec.Finite? && u.betaRadPerSec.Finite? && u.gammaRadPerSec.Finite? then
        Some(Length3(u.alphaRadPerSec.r, u.betaRadPerSec.r, u.gammaRadPerSec.r, m))
      else None
  }

  /** The roll, pitch, yaw, lin and rot the aggregator reports. */
  datatype Values = Values(roll: real, pitch: real, yaw: real, lin: real, rot: real)

  const ZeroValues: Values := Values(0.0, 0.0, 0.0, 0.0, 0.0)

  predicate ValuesInRange(v: Values) {
    && -1.0 <= v.roll <= 1.0 && -1.0 <= v.pitch <= 1.0 && -1.0 <= v.yaw <= 1.0
    && 0.0 <= v.lin <= 1.0 && 0.0 <= v.rot <= 1.0
  }

  /** The options of createMotionControls, the time constants already converted. */
  datatype Config = Config(orientationTau: Tau, accelTau: Tau, linAccMax: real, rotRateMax: real)

  predicate ValidConfig(cfg: Config) {
    ValidTau(cfg.orientationTau) && ValidTau(cfg.accelTau)
  }

  /** One call of update(...); none stands for an absent (or falsy) field. */
  datatype Sample = Sample(
    tMs: Option<real>,
    quaternion: Option<seq<Num>>,
    linearAcceleration: Option<Reading>,
    rotationRate: Option<Reading>)

  /** The closure state of createMotionControls, with the states of its five filters. */
  datatype ControlsState = ControlsState(
    baseline: Option<Quat>,
    lastQuatRaw: Option<Quat>,
    lastLin: Option<Reading>,
    lastRot: Option<Reading>,
    lastRotVec: Option<RotationVector>,
    last: Values,
    fRoll: EmaState,
    fPitch: EmaState,
    fYaw: EmaState,
    fLin: EmaState,
    fRot: EmaState)

  const Unseeded: EmaState := EmaState(None, None)

  /** The state right after createMotionControls: nothing seen, every value 0. */
  function InitialState(): (s: ControlsState)
    ensures s.baseline.None? && s.lastRotVec.None?
    ensures s.last == ZeroValues && ValuesInRange(s.last)
  {
    ControlsState(None, None, None, None, None, ZeroValues, Unseeded, Unseeded, Unseeded, Unseeded, Unseeded)
  }

  /** recalibrate(): the last valid raw quaternion (or none) becomes the baseline; all five filters are unseeded. */
  function RecalibrateSpec(s: ControlsState): (r: ControlsState)
    ensures r.baseline == s.lastQuatRaw
    ensures r.fRoll == r.fPitch == r.fYaw == r.fLin == r.fRot == Unseeded
    ensures r.lastQuatRaw == s.lastQuatRaw && r.last == s.last && r.lastRotVec == s.lastRotVec
    ensures r.lastLin == s.lastLin && r.lastRot == s.lastRot
  {
    s.(baseline := s.lastQuatRaw, fRoll := Unseeded, fPitch := Unseeded, fYaw := Unseeded, fLin := Unseeded, fRot := Unseeded)
  }

  /** A magnitude scaled by its maximum and clamped to [0, 1]; 0 when there is no magnitude. */
  function Scale01(mag: Option<real>, max: real): (r: real)
    ensures 0.0 <= r <= 1.0
    ensures mag.None? ==> r == 0.0
  {
    if mag.None? then 0.0 else Clamp(OfOption(Div(mag.value, max)), 0.0, 1.0)
  }

  /** A valid raw quaternion is recorded, and becomes the baseline if there is none yet. */
  function ArmBaseline(s: ControlsState, qRaw: Quat): (r: ControlsState)
    ensures r.baseline.Some?
  {
    s.(lastQuatRaw := Some(qRaw), baseline := if s.baseline.None? then Some(qRaw) else s.baseline)
  }

  /** Roll, pitch and yaw from a rotation vector, each a component over PI, smoothed and clamped. */
  function ApplyRotation(cfg: Config, s: ControlsState, rv: RotationVector, tMs: Option<real>, m: MathFns): ControlsState
    requires Lawful(m) && ValidConfig(cfg)
  {
    var fr := EmaUpdate(cfg.orientationTau, s.fRoll, Finite(Clamp(Finite(rv.rx / PI), -1.0, 1.0)), tMs, m);
    var fp := EmaUpdate(cfg.orientationTau, s.fPitch, Finite(Clamp(Finite(rv.ry / PI), -1.0, 1.0)), tMs, m);
    var fy := EmaUpdate(cfg.orientationTau, s.fYaw, Finite(Clamp(Finite(rv.rz / PI), -1.0, 1.0)), tMs, m);
    s.(lastRotVec := Some(rv), fRoll := fr, fPitch := fp, fYaw := fy,
       last := s.last.(roll := Clamp(OfOption(fr.y), -1.0, 1.0),
                       pitch := Clamp(OfOption(fp.y), -1.0, 1.0),
                       yaw := Clamp(OfOption(fy.y), -1.0, 1.0)))
  }

  /**
   * The orientation part of update for a valid raw quaternion: the rotation
   * relative to the baseline, when the baseline has an inverse.
   */
  function OrientSpec(cfg: Config, s: ControlsState, qRaw: Quat, tMs: Option<real>, m: MathFns): ControlsState
    requires Lawful(m) && ValidConfig(cfg)
  {
    var s1 := ArmBaseline(s, qRaw);
    var inv := Inverse(s1.baseline.value);
    if inv.None? then s1
    else ApplyRotation(cfg, s1, ToRotationVector(Multiply(inv.value, qRaw), m), tMs, m)
  }

  /** The magnitude part of update, run on every call from the stored readings. */
  function MagnitudeSpec(cfg: Config, s: ControlsState, tMs: Option<real>, m: MathFns): ControlsState
    requires Lawful(m) && ValidConfig(cfg)
  {
    var fl := EmaUpdate(cfg.accelTau, s.fLin, Finite(Scale01(VecMag(s.lastLin, m), cfg.linAccMax)), tMs, m);
    var fo := EmaUpdate(cfg.accelTau, s.fRot, Finite(Scale01(VecMag(s.lastRot, m), cfg.rotRateMax)), tMs, m);
    s.(fLin := fl, fRot := fo,
       last := s.last.(lin := Clamp(OfOption(fl.y), 0.0, 1.0), rot := Clamp(OfOption(fo.y), 0.0, 1.0)))
  }

  /** The readings kept after a sample: a present reading replaces the stored one. */
  function StoreReadings(s: ControlsState, sample: Sample): ControlsState {
    s.(lastLin := if sample.linearAcceleration.Some? then sample.linearAcceleration else s.lastLin,
       lastRot := if sample.rotationRate.Some? then sample.rotationRate else s.lastRot)
  }

  /** update(sample) on the state. */
  function UpdateSpec(cfg: Config, s: ControlsState, sample: Sample, m: MathFns): ControlsState
    requires Lawful(m) && ValidConfig(cfg)
  {
    var s0 := StoreReadings(s, sample);
    var q := SafeQuat(sample.quaternion);
    var s1 := if q.Some? then OrientSpec(cfg, s0, q.value, sample.tMs, m) else s0;
    MagnitudeSpec(cfg, s1, sample.tMs, m)
  }

  /** getSnapshot(): whether a baseline is set, the last rotation vector, and the values. */
  datatype Snapshot = Snapshot(baselineSet: bool, rotVec: Option<RotationVector>, values: Values)

  function SnapshotOf(s: ControlsState): Snapshot {
    Snapshot(s.baseline.Some?, s.lastRotVec, s.last)
  }

  /** What update returns: the snapshot and the two raw magnitudes. */
  datatype UpdateResult = UpdateResult(snapshot: Snapshot, linMag: Option<real>, rotMag: Option<real>)

  function ResultOf(s: ControlsState, m: MathFns): UpdateResult
    requires Lawful(m)
  {
    UpdateResult(SnapshotOf(s), VecMag(s.lastLin, m), VecMag(s.lastRot, m))
  }

  // ------------------------------------------------------------------ properties

  /**
   * The reported values stay in range: lin and rot always land in [0, 1], and roll,
   * pitch and yaw in [-1, 1] whenever they did before.
   */
  lemma UpdateKeepsRange(cfg: Config, s: ControlsState, sample: Sample, m: MathFns)
    requires Lawful(m) && ValidConfig(cfg)
    ensures var r := UpdateSpec(cfg, s, sample, m);
      0.0 <= r.last.lin <= 1.0 && 0.0 <= r.last.rot <= 1.0
    ensures ValuesInRange(s.last) ==> ValuesInRange(UpdateSpec(cfg, s, sample, m).last)
  {}

  /** The first valid quaternion becomes the baseline. */
  lemma FirstQuaternionBecomesBaseline(cfg: Config, s: ControlsState, sample: Sample, m: MathFns)
    requires Lawful(m) && ValidConfig(cfg)
    requires s.baseline.None? && SafeQuat(sample.quaternion).Some?
    ensures UpdateSpec(cfg, s, sample, m).baseline == SafeQuat(sample.quaternion)
    ensures UpdateSpec(cfg, s, sample, m).lastQuatRaw == SafeQuat(sample.quaternion)
  {}

  /** Only recalibrate replaces a baseline once it is set. */
  lemma BaselineIsKept(cfg: Config, s: ControlsState, sample: Sample, m: MathFns)
    requires Lawful(m) && ValidConfig(cfg)
    requires s.baseline.Some?
    ensures UpdateSpec(cfg, s, sample, m).baseline == s.baseline
  {}

  /**
   * An absent or malformed quaternion leaves the baseline, the last raw quaternion,
   * the rotation vector, roll, pitch, yaw and their filters untouched.
   */
  lemma InvalidQuaternionKeepsOrientation(cfg: Config, s: ControlsState, sample: Sample, m: MathFns)
    requires Lawful(m) && ValidConfig(cfg)
    requires SafeQuat(sample.quaternion).None?
    ensures var r := UpdateSpec(cfg, s, sample, m);
      && r.baseline == s.baseline && r.lastQuatRaw == s.lastQuatRaw && r.lastRotVec == s.lastRotVec
      && r.last.roll == s.last.roll && r.last.pitch == s.last.pitch && r.last.yaw == s.last.yaw
      && r.fRoll == s.fRoll && r.fPitch == s.fPitch && r.fYaw == s.fYaw
  {}

  /**
   * A zero baseline has no inverse: the orientation is frozen until recalibration,
   * though the raw quaternion is still recorded.
   */
  lemma ZeroBaselineFreezesOrientation(cfg: Config, s: ControlsState, sample: Sample, m: MathFns)
    requires Lawful(m) && ValidConfig(cfg)
    requires s.baseline == Some(Zero)
    ensures var r := UpdateSpec(cfg, s, sample, m);
      && r.lastRotVec == s.lastRotVec
      && r.last.roll == s.last.roll && r.last.pitch == s.last.pitch && r.last.yaw == s.last.yaw
      && (SafeQuat(sample.quaternion).Some? ==> r.lastQuatRaw == SafeQuat(sample.quaternion))
  {
    var s0 := StoreReadings(s, sample);
    var q := SafeQuat(sample.quaternion);
    if q.Some? {
      OrientWithZeroBaseline(cfg, s0, q.value, sample.tMs, m);
    }
  }

  lemma OrientWithZeroBaseline(cfg: Config, s: ControlsState, qRaw: Quat, tMs: Option<real>, m: MathFns)
    requires Lawful(m) && ValidConfig(cfg)
    requires s.baseline == Some(Zero)
    ensures OrientSpec(cfg, s, qRaw, tMs, m) == ArmBaseline(s, qRaw)
  {
    assert ArmBaseline(s, qRaw).baseline == Some(Zero);
    assert Inverse(Zero).None?;
  }

  /**
   * Recalibrating and then feeding the same (non-zero) quaternion gives the
   * identity relative rotation: no rotation, and roll, pitch and yaw exactly 0.
   */
  lemma RecalibrateThenSameQuaternionIsLevel(cfg: Config, s: ControlsState, sample: Sample, m: MathFns)
    requires Lawful(m) && ValidConfig(cfg)
    requires SafeQuat(sample.quaternion).Some? && SafeQuat(sample.quaternion).value != Zero
    requires s.lastQuatRaw.None? || s.lastQuatRaw == SafeQuat(sample.quaternion)
    ensures var r := UpdateSpec(cfg, RecalibrateSpec(s), sample, m);
      && r.lastRotVec == Some(NoRotation)
      && r.last.roll == 0.0 && r.last.pitch == 0.0 && r.last.yaw == 0.0
      && r.baseline == SafeQuat(sample.quaternion)
  {
    var q := SafeQuat(sample.quaternion).value;
    InverseIsTwoSided(q);
    assert Multiply(Inverse(q).value, q) == Identity;
    assert ToRotationVector(Identity, m) == NoRotation;
  }

  /**
   * lin and rot are re-fed on every update from the stored readings; while no
   * reading has ever arrived, 0 is fed.
   */
  lemma MagnitudesFedFromStoredReadings(cfg: Config, s: ControlsState, sample: Sample, m: MathFns)
    requires Lawful(m) && ValidConfig(cfg)
    ensures var r := UpdateSpec(cfg, s, sample, m);
      && r.lastLin == (if sample.linearAcceleration.Some? then sample.linearAcceleration else s.lastLin)
      && r.lastRot == (if sample.rotationRate.Some? then sample.rotationRate else s.lastRot)
    ensures s.lastLin.None? && sample.linearAcceleration.None? ==>
      UpdateSpec(cfg, s, sample, m).fLin == EmaUpdate(cfg.accelTau, s.fLin, Finite(0.0), sample.tMs, m)
    ensures s.lastRot.None? && sample.rotationRate.None? ==>
      UpdateSpec(cfg, s, sample, m).fRot == EmaUpdate(cfg.accelTau, s.fRot, Finite(0.0), sample.tMs, m)
  {
    var s0 := StoreReadings(s, sample);
    var q := SafeQuat(sample.quaternion);
    var s1 := if q.Some? then OrientSpec(cfg, s0, q.value, sample.tMs, m) else s0;
    assert s1.lastLin == s0.lastLin && s1.lastRot == s0.lastRot && s1.fLin == s.fLin && s1.fRot == s.fRot;
  }

  // ---------------------------------------------------------------------- state

  /** The object createMotionControls returns, with its five filters. */
  class MotionControls {
    const cfg: Config
    const fRoll: EmaFilter
    const fPitch: EmaFilter
    const fYaw: EmaFilter
    const fLin: EmaFilter
    const fRot: EmaFilter
    var baseline: Option<Quat>
    var lastQuatRaw: Option<Quat>
    var lastLin: Option<Reading>
    var lastRot: Option<Reading>
    var lastRotVec: Option<RotationVector>
    var last: Values

    ghost predicate Valid()
      reads this, fRoll, fPitch, fYaw, fLin, fRot
    {
      && ValidConfig(cfg)
      && fRoll != fPitch && fRoll != fYaw && fRoll != fLin && fRoll != fRot
      && fPitch != fYaw && fPitch != fLin && fPitch != fRot
      && fYaw != fLin && fYaw != fRot
      && fLin != fRot
      && fRoll.tau == cfg.orientationTau && fPitch.tau == cfg.orientationTau && fYaw.tau == cfg.orientationTau
      && fLin.tau == cfg.accelTau && fRot.tau == cfg.accelTau
    }

    function State(): ControlsState
      reads this, fRoll, fPitch, fYaw, fLin, fRot
    {
      ControlsState(baseline, lastQuatRaw, lastLin, lastRot, lastRotVec, last,
        fRoll.State(), fPitch.State(), fYaw.State(), fLin.State(), fRot.State())
    }

    constructor(orientationTau: Num, accelTau: Num, linAccMax: real, rotRateMax: real)
      ensures Valid()
      ensures cfg == Config(TauFrom(orientationTau), TauFrom(accelTau), linAccMax, rotRateMax)
      ensures State() == InitialState()
      ensures fresh(fRoll) && fresh(fPitch) && fresh(fYaw) && fresh(fLin) && fresh(fRot)
    {
      cfg := Config(TauFrom(orientationTau), TauFrom(accelTau), linAccMax, rotRateMax);
      fRoll := new EmaFilter(orientationTau);
      fPitch := new EmaFilter(orientationTau);
      fYaw := new EmaFilter(orientationTau);
      fLin := new EmaFilter(accelTau);
      fRot := new EmaFilter(accelTau);
      baseline := None;
      lastQuatRaw := None;
      lastLin := None;
      lastRot := None;
      lastRotVec := None;
      last := ZeroValues;
    }

    /** recalibrate() */
    method Recalibrate()
      requires Valid()
      modifies this, fRoll, fPitch, fYaw, fLin, fRot
      ensures Valid()
      ensures State() == RecalibrateSpec(old(State()))
    {
      baseline := lastQuatRaw;
      fRoll.Reset(None, None);
      fPitch.Reset(None, None);
      fYaw.Reset(None, None);
      fLin.Reset(None, None);
      fRot.Reset(None, None);
    }

    /** update({ tMs, quaternion, linearAcceleration, rotationRate }) */
    method Update(sample: Sample, m: MathFns) returns (res: UpdateResult)
      requires Valid() && Lawful(m)
      modifies this, fRoll, fPitch, fYaw, fLin, fRot
      ensures Valid()
      ensures State() == UpdateSpec(cfg, old(State()), sample, m)
      ensures res == ResultOf(State(), m)
    {
      if sample.linearAcceleration.Some? {
        lastLin := sample.linearAcceleration;
      }
      if sample.rotationRate.Some? {
        lastRot := sample.rotationRate;
      }
      assert State() == StoreReadings(old(State()), sample);
      var qRaw := SafeQuat(sample.quaternion);
      if qRaw.Some? {
        UpdateOrientation(qRaw.value, sample.tMs, m);
      }
      var linMag, rotMag := UpdateMagnitudes(sample.tMs, m);
      res := UpdateResult(Snapshot(baseline.Some?, lastRotVec, last), linMag, rotMag);
    }

    /** The orientation part of update, for a valid raw quaternion. */
    method UpdateOrientation(qRaw: Quat, tMs: Option<real>, m: MathFns)
      requires Valid() && Lawful(m)
      modifies this, fRoll, fPitch, fYaw
      ensures Valid()
      ensures State() == OrientSpec(cfg, old(State()), qRaw, tMs, m)
    {
      lastQuatRaw := Some(qRaw);
      if baseline.None? {
        baseline := Some(qRaw);
      }
      ghost var s1 := State();
      assert s1 == ArmBaseline(old(State()), qRaw);
      var inv := Inverse(baseline.value);
      if inv.Some? {
        var rv := ToRotationVector(Multiply(inv.value, qRaw), m);
        lastRotVec := Some(rv);
        var roll := Clamp(Finite(rv.rx / PI), -1.0, 1.0);
        var pitch := Clamp(Finite(rv.ry / PI), -1.0, 1.0);
        var yaw := Clamp(Finite(rv.rz / PI), -1.0, 1.0);
        var yr := fRoll.Update(Finite(roll), tMs, m);
        var yp := fPitch.Update(Finite(pitch), tMs, m);
        var yy := fYaw.Update(Finite(yaw), tMs, m);
        last := last.(roll := Clamp(OfOption(yr), -1.0, 1.0),
                      pitch := Clamp(OfOption(yp), -1.0, 1.0),
                      yaw := Clamp(OfOption(yy), -1.0, 1.0));
        assert State() == ApplyRotation(cfg, s1, rv, tMs, m);
      }
    }

    /** The magnitude part of update: both filters are fed from the stored readings. */
    method UpdateMagnitudes(tMs: Option<real>, m: MathFns) returns (linMag: Option<real>, rotMag: Option<real>)
      requires Valid() && Lawful(m)
      modifies this, fLin, fRot
      ensures Valid()
      ensures State() == MagnitudeSpec(cfg, old(State()), tMs, m)
      ensures linMag == VecMag(lastLin, m) && rotMag == VecMag(lastRot, m)
    {
      linMag := VecMag(lastLin, m);
      rotMag := VecMag(lastRot, m);
      var lin01 := Scale01(linMag, cfg.linAccMax);
      var rot01 := Scale01(rotMag, cfg.rotRateMax);
      var yl := fLin.Update(Finite(lin01), tMs, m);
      var yo := fRot.Update(Finite(rot01), tMs, m);
      last := last.(lin := Clamp(OfOption(yl), 0.0, 1.0), rot := Clamp(OfOption(yo), 0.0, 1.0));
    }

    /** getSnapshot() */
    function GetSnapshot(): (r: Snapshot)
      reads this, fRoll, fPitch, fYaw, fLin, fRot
      ensures r == SnapshotOf(State())
    {
      Snapshot(baseline.Some?, lastRotVec, last)
    }
  }
}
