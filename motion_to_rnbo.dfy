/**
 * The fixed-route motion to RNBO bridge of lib/bridge/motionToRnbo.js. Orientation
 * relative to a baseline quaternion is turned into Euler angles, each folded onto a
 * mirrored 0..1 ramp and smoothed (sx, sy, sz); the magnitudes of linear
 * acceleration and rotation rate are scaled and smoothed (slin, srot). The five
 * controls drive six RNBO parameters, two of them through dwell quantizers, each
 * write gated per parameter; a debug callback is throttled by tMs.
 */
module Bridge {
  import opened Wrappers
  import opened JsNumbers
  import opened Quaternion
  import opened Filters
  import Controls
  import opened RateGate
  import opened Sink
  import opened RnboMapping

  // ------------------------------------------------------------------ helpers

  /** Euler angles in degrees: roll about x, pitch about y, yaw about z. */
  datatype Euler = Euler(x: real, y: real, z: real)

  /**
   * Radians to degrees, `r * (180 / Math.PI)`; the literal in the body is the value
   * of PI, written out so that the division stays linear.
   */
  function RadToDeg(r: real): (d: real)
    ensures -PI < r <= PI ==> -180.0 < d <= 180.0
    ensures -PI / 2.0 <= r <= PI / 2.0 ==> -90.0 <= d <= 90.0
    ensures d * 3.141592653589793 == r * 180.0
    ensures r == 0.0 ==> d == 0.0
  {
    r * 180.0 / 3.141592653589793
  }

  /**
   * quatToEulerDegXYZ(q): roll and yaw from atan2, so in (-180, 180]; pitch from
   * the asin of a value clamped to [-1, 1], so in [-90, 90].
   */
  function QuatToEulerDegXYZ(q: Quat, m: MathFns): (e: Euler)
    requires Lawful(m)
    ensures -180.0 < e.x <= 180.0
    ensures -90.0 <= e.y <= 90.0
    ensures -180.0 < e.z <= 180.0
  {
    var roll := m.atan2(2.0 * (q.w * q.x + q.y * q.z), 1.0 - 2.0 * (q.x * q.x + q.y * q.y));
    var pitch := m.asin(Clamp(Finite(2.0 * (q.w * q.y - q.z * q.x)), -1.0, 1.0));
    var yaw := m.atan2(2.0 * (q.w * q.z + q.x * q.y), 1.0 - 2.0 * (q.y * q.y + q.z * q.z));
    Euler(RadToDeg(roll), RadToDeg(pitch), RadToDeg(yaw))
  }

  /** The identity quaternion has all three angles 0. */
  lemma EulerOfIdentity(m: MathFns)
    requires Lawful(m)
    ensures QuatToEulerDegXYZ(Identity, m) == Euler(0.0, 0.0, 0.0)
  {
    assert Clamp(Finite(0.0), -1.0, 1.0) == 0.0;
  }

  /** to360(deg): none (null) for a non-finite angle, otherwise the angle wrapped into [0, 360). */
  function To360(deg: Num): (r: Option<real>)
    ensures r.Some? <==> deg.Finite?
    ensures r.Some? ==> 0.0 <= r.value < 360.0
    ensures r.Some? ==> r.value == deg.r - 360.0 * ((deg.r / 360.0).Floor as real)
    ensures deg == Finite(0.0) ==> r == Some(0.0)
  {
    Wrap360Unique(0.0, 0.0, 0);
    if !deg.Finite? then None else Some(Wrap360(deg.r))
  }

  /** `mirroredAngle01(to360(deg))`: in [0, 1], and 0 for the angle 0. */
  function Angle01(deg: real): (r: real)
    ensures 0.0 <= r <= 1.0
    ensures deg == 0.0 ==> r == 0.0
  {
    MirroredAngle01OrNull(To360(Finite(deg)))
  }

  /**
   * vecMag(v) of the bridge: none for a missing reading, and none unless x, y and z
   * are all finite numbers; otherwise their length. Unlike the aggregator it has
   * no alpha/beta/gamma fallback.
   */
  function BridgeVecMag(v: Option<Controls.Reading>, m: MathFns): (r: Option<real>)
    requires Lawful(m)
    ensures r.Some? <==> v.Some? && v.value.x.Finite? && v.value.y.Finite? && v.value.z.Finite?
    ensures r.Some? ==> r.value >= 0.0
    ensures r.Some? ==> Square(r.value) == Square(v.value.x.r) + Square(v.value.y.r) + Square(v.value.z.r)
  {
    if v.None? then None
    else if v.value.x.Finite? && v.value.y.Finite? && v.value.z.Finite? then
      Some(Controls.Length3(v.value.x.r, v.value.y.r, v.value.z.r, m))
    else None
  }

  /** `mag == null ? null : clamp(mag / max, 0, 1)` */
  function Unit(mag: Option<real>, max: real): (r: Option<real>)
    ensures r.Some? <==> mag.Some?
    ensures r.Some? ==> 0.0 <= r.value <= 1.0
    ensures mag.Some? && max != 0.0 && 0.0 <= mag.value / max <= 1.0 ==> r == Some(mag.value / max)
  {
    if mag.None? then None else Some(Controls.Scale01(mag, max))
  }

  // -------------------------------------------------------------------- state

  /** The merged options: the time constants are already converted by the filters. */
  datatype BridgeConfig = BridgeConfig(
    updateHz: real,
    debugHz: real,
    linAccMax: real,
    rotRateMax: real,
    orientationTau: Tau,
    accelTau: Tau)

  predicate ValidBridgeConfig(cfg: BridgeConfig) {
    ValidTau(cfg.orientationTau) && ValidTau(cfg.accelTau)
  }

  /** The defaults: 25 Hz writes, 8 Hz debug, 15 m/s² and 6 rad/s full scale, taus of 0.18 s and 0.14 s. */
  const DefaultConfig: BridgeConfig := BridgeConfig(25.0, 8.0, 15.0, 6.0, Seconds(0.18), Seconds(0.14))

  /** The defaults are what the constructor builds from the default options, and they are valid. */
  lemma DefaultConfigFromDefaults()
    ensures DefaultConfig == BridgeConfig(25.0, 8.0, 15.0, 6.0, TauFrom(Finite(0.18)), TauFrom(Finite(0.14)))
    ensures ValidBridgeConfig(DefaultConfig)
  {}

  /** The quantizers: seqlength in 0..7 held 160 ms, offset in 0..12 held 120 ms. */
  const SeqLenMax: int := 7
  const SeqLenDwellMs: real := 160.0
  const OffsetMax: int := 12
  const OffsetDwellMs: real := 120.0

  /** One tick({ tMs, linearAcceleration, rotationRate, quaternion }); none stands for absent or falsy. */
  datatype Tick = Tick(
    tMs: Option<real>,
    quaternion: Option<seq<Num>>,
    linearAcceleration: Option<Controls.Reading>,
    rotationRate: Option<Controls.Reading>)

  /** lastControls: each control is none (null) or a value. */
  datatype BridgeControls = BridgeControls(sx: Option<real>, sy: Option<real>, sz: Option<real>, slin: Option<real>, srot: Option<real>)

  /** What onDebug is called with. */
  datatype DebugEvent =
    | EnabledChanged(enabled: bool)
    | Recalibrated(enabled: bool, recalibratedAtMs: Option<real>, baselineSet: bool)
    | TickReport(enabled: bool, tMs: real, baselineSet: bool, eulerDeg: Option<Euler>,
                 linMag: Option<real>, rotMag: Option<real>, controls: BridgeControls)

  /** baselineQuat, lastQuatRaw and lastEulerDeg. */
  datatype Orientation = Orientation(baseline: Option<Quat>, lastQuatRaw: Option<Quat>, lastEuler: Option<Euler>)

  /** The states of fX, fY, fZ, fLin and fRot. */
  datatype Smoothers = Smoothers(fX: EmaState, fY: EmaState, fZ: EmaState, fLin: EmaState, fRot: EmaState)

  /** The write side: lastSetAt, both quantizers, and the calls the sink has received. */
  datatype Writes = Writes(lastSetAt: RateState, seqLen: DwellState, offset: DwellState, sent: seq<ParamCall>)

  /** lastDebugAtMs (none for -Infinity) and the events onDebug has received. */
  datatype DebugLog = DebugLog(lastAtMs: Option<real>, events: seq<DebugEvent>)

  /** The closure state of createMotionToRnboBridge. */
  datatype BridgeState = BridgeState(
    enabled: bool,
    orient: Orientation,
    lastLin: Option<Controls.Reading>,
    lastRot: Option<Controls.Reading>,
    filters: Smoothers,
    lastControls: Option<BridgeControls>,
    writes: Writes,
    debug: DebugLog)

  const Unseeded: EmaState := EmaState(None, None)
  const NoDwell: DwellState := DwellState(None, None, None)
  const AllUnseeded: Smoothers := Smoothers(Unseeded, Unseeded, Unseeded, Unseeded, Unseeded)

  /** The state right after createMotionToRnboBridge. */
  function InitialState(enabled: bool): (s: BridgeState)
    ensures s.enabled == enabled && s.orient.baseline.None? && s.lastControls.None?
    ensures s.writes.sent == [] && s.debug.events == [] && s.writes.lastSetAt == map[]
  {
    BridgeState(enabled, Orientation(None, None, None), None, None, AllUnseeded, None,
      Writes(map[], NoDwell, NoDwell, []), DebugLog(None, []))
  }

  // ------------------------------------------------------------ the tick stages

  /** The baseline after a valid raw quaternion: the existing one, or the quaternion itself. */
  function ArmedBaseline(o: Orientation, qRaw: Quat): Quat {
    if o.baseline.None? then qRaw else o.baseline.value
  }

  /**
   * The Euler angles of a tick: computed from the rotation relative to the
   * (armed) baseline when the quaternion is valid and the baseline has an inverse.
   */
  function TickEuler(o: Orientation, q: Option<Quat>, m: MathFns): (e: Option<Euler>)
    requires Lawful(m)
    ensures e.Some? <==> q.Some? && ArmedBaseline(o, q.value) != Zero
  {
    if q.None? then None
    else
      var inv := Inverse(ArmedBaseline(o, q.value));
      if inv.None? then None else Some(QuatToEulerDegXYZ(Multiply(inv.value, q.value), m))
  }

  /** The orientation fields after a tick. */
  function OrientStep(o: Orientation, q: Option<Quat>, m: MathFns): Orientation
    requires Lawful(m)
  {
    if q.None? then o
    else
      var e := TickEuler(o, q, m);
      Orientation(Some(ArmedBaseline(o, q.value)), q, if e.Some? then e else o.lastEuler)
  }

  /** A present reading replaces the stored one. */
  function StoreReadings(s: BridgeState, t: Tick): BridgeState {
    s.(lastLin := if t.linearAcceleration.Some? then t.linearAcceleration else s.lastLin,
       lastRot := if t.rotationRate.Some? then t.rotationRate else s.lastRot)
  }

  /** A filter is updated only when its input is not null. */
  function Smooth(tau: Tau, f: EmaState, x: Option<real>, tMs: Option<real>, m: MathFns): EmaState
    requires Lawful(m) && ValidTau(tau)
  {
    if x.None? then f else EmaUpdate(tau, f, Finite(x.value), tMs, m)
  }

  /** `x == null ? null : clamp(f.update(x, tMs), 0, 1)`, from the updated filter state. */
  function Smoothed(x: Option<real>, f: EmaState): (r: Option<real>)
    ensures r.Some? <==> x.Some?
    ensures r.Some? ==> 0.0 <= r.value <= 1.0
  {
    if x.None? then None else Some(Clamp(OfOption(f.y), 0.0, 1.0))
  }

  function X01(e: Option<Euler>): Option<real> { if e.None? then None else Some(Angle01(e.value.x)) }
  function Y01(e: Option<Euler>): Option<real> { if e.None? then None else Some(Angle01(e.value.y)) }
  function Z01(e: Option<Euler>): Option<real> { if e.None? then None else Some(Angle01(e.value.z)) }

  /** The filters after a tick, fed with the ramped angles and the scaled magnitudes. */
  function SmoothStep(cfg: BridgeConfig, f: Smoothers, e: Option<Euler>, lin01: Option<real>, rot01: Option<real>,
                      tMs: Option<real>, m: MathFns): Smoothers
    requires Lawful(m) && ValidBridgeConfig(cfg)
  {
    Smoothers(
      Smooth(cfg.orientationTau, f.fX, X01(e), tMs, m),
      Smooth(cfg.orientationTau, f.fY, Y01(e), tMs, m),
      Smooth(cfg.orientationTau, f.fZ, Z01(e), tMs, m),
      Smooth(cfg.accelTau, f.fLin, lin01, tMs, m),
      Smooth(cfg.accelTau, f.fRot, rot01, tMs, m))
  }

  /** The five controls read from the updated filters. */
  function ControlsOf(f: Smoothers, e: Option<Euler>, lin01: Option<real>, rot01: Option<real>): BridgeControls {
    BridgeControls(Smoothed(X01(e), f.fX), Smoothed(Y01(e), f.fY), Smoothed(Z01(e), f.fZ),
                   Smoothed(lin01, f.fLin), Smoothed(rot01, f.fRot))
  }

  /** Filtering and the new lastControls, from the stored readings. */
  function SmoothSpec(cfg: BridgeConfig, s: BridgeState, e: Option<Euler>, tMs: Option<real>, m: MathFns): (r: BridgeState)
    requires Lawful(m) && ValidBridgeConfig(cfg)
    ensures r.lastControls.Some?
  {
    var lin01 := Unit(BridgeVecMag(s.lastLin, m), cfg.linAccMax);
    var rot01 := Unit(BridgeVecMag(s.lastRot, m), cfg.rotRateMax);
    var f := SmoothStep(cfg, s.filters, e, lin01, rot01, tMs, m);
    s.(filters := f, lastControls := Some(ControlsOf(f, e, lin01, rot01)))
  }

  /** `if (canSetNow(key, tMs)) rnbo?.method?.(key, v)` */
  function Send(w: Writes, rnbo: Option<SinkCaps>, tMs: Option<real>, updateHz: real, call: ParamCall): (r: Writes)
    ensures r.seqLen == w.seqLen && r.offset == w.offset
    ensures r.lastSetAt == CanSetNow(w.lastSetAt, call.paramId, tMs, updateHz).last
    ensures r.sent == w.sent + (if Admits(w.lastSetAt, call.paramId, tMs, updateHz) then Deliver(rnbo, call) else [])
  {
    var g := CanSetNow(w.lastSetAt, call.paramId, tMs, updateHz);
    w.(lastSetAt := g.last, sent := if g.ok then w.sent + Deliver(rnbo, call) else w.sent)
  }

  /** The seqlength quantizer step: `seqLenQuant.update(Math.round(sy * 7), tMs)`. */
  function SeqLenStep(d: DwellState, sy: real, tMs: Option<real>): (r: DwellState)
    ensures r.current.Some?
  {
    DwellUpdate(0, SeqLenMax, SeqLenDwellMs, d, Finite(Round(sy * 7.0) as real), tMs)
  }

  /** The offset quantizer step: `offsetQuant.update(Math.round(sz * 12), tMs)`. */
  function OffsetStep(d: DwellState, sz: real, tMs: Option<real>): (r: DwellState)
    ensures r.current.Some?
  {
    DwellUpdate(0, OffsetMax, OffsetDwellMs, d, Finite(Round(sz * 12.0) as real), tMs)
  }

  /** Y drives freq (normalized) and then seqlength (quantized, as a plain value). */
  function WriteY(w: Writes, rnbo: Option<SinkCaps>, sy: real, tMs: Option<real>, updateHz: real): Writes {
    var w1 := Send(w, rnbo, tMs, updateHz, SetParamNormalized("freq", sy));
    var d := SeqLenStep(w1.seqLen, sy, tMs);
    Send(w1.(seqLen := d), rnbo, tMs, updateHz, SetParamValue("seqlength", d.current.value as real))
  }

  /** Z drives offset (quantized, as a plain value). */
  function WriteZ(w: Writes, rnbo: Option<SinkCaps>, sz: real, tMs: Option<real>, updateHz: real): Writes {
    var d := OffsetStep(w.offset, sz, tMs);
    Send(w.(offset := d), rnbo, tMs, updateHz, SetParamValue("offset", d.current.value as real))
  }

  /** The writes of a tick, in the source's order: metroRate, freq, seqlength, offset, delay, degrade. */
  function WriteStep(updateHz: real, rnbo: Option<SinkCaps>, w: Writes, c: BridgeControls, tMs: Option<real>): Writes {
    var w1 := if c.sx.Some? then Send(w, rnbo, tMs, updateHz, SetParamNormalized("metroRate", c.sx.value)) else w;
    var w2 := if c.sy.Some? then WriteY(w1, rnbo, c.sy.value, tMs, updateHz) else w1;
    var w3 := if c.sz.Some? then WriteZ(w2, rnbo, c.sz.value, tMs, updateHz) else w2;
    var w4 := if c.slin.Some? then Send(w3, rnbo, tMs, updateHz, SetParamNormalized("delay", c.slin.value)) else w3;
    if c.srot.Some? then Send(w4, rnbo, tMs, updateHz, SetParamNormalized("degrade", c.srot.value)) else w4
  }

  /** `tMs - lastDebugAtMs >= 1000 / Math.max(1, debugHz)`, lastDebugAtMs none being -Infinity. */
  predicate DebugDue(d: DebugLog, tMs: Option<real>, debugHz: real) {
    tMs.Some? && (d.lastAtMs.None? || tMs.value - d.lastAtMs.value >= MinIntervalMs(debugHz))
  }

  /** The report a tick sends to onDebug. */
  function ReportOf(s: BridgeState, tMs: real, m: MathFns): DebugEvent
    requires Lawful(m) && s.lastControls.Some?
  {
    TickReport(s.enabled, tMs, s.orient.baseline.Some?, s.orient.lastEuler,
      BridgeVecMag(s.lastLin, m), BridgeVecMag(s.lastRot, m), s.lastControls.value)
  }

  /** The debug throttle at the end of a tick: it fires only when onDebug exists and the interval has passed. */
  function DebugSpec(cfg: BridgeConfig, hasDebug: bool, s: BridgeState, tMs: Option<real>, m: MathFns): BridgeState
    requires Lawful(m) && s.lastControls.Some?
  {
    if hasDebug && DebugDue(s.debug, tMs, cfg.debugHz) then
      s.(debug := DebugLog(tMs, s.debug.events + [ReportOf(s, tMs.value, m)]))
    else s
  }

  /** The tick up to the writes. */
  function PreWriteSpec(cfg: BridgeConfig, s: BridgeState, t: Tick, m: MathFns): (r: BridgeState)
    requires Lawful(m) && ValidBridgeConfig(cfg)
    ensures r.lastControls.Some?
  {
    var q := Controls.SafeQuat(t.quaternion);
    var e := TickEuler(s.orient, q, m);
    var s1 := s.(orient := OrientStep(s.orient, q, m));
    SmoothSpec(cfg, StoreReadings(s1, t), e, t.tMs, m)
  }

  /** tick(...) on the state: nothing at all while disabled. */
  function TickSpec(cfg: BridgeConfig, rnbo: Option<SinkCaps>, hasDebug: bool, s: BridgeState, t: Tick, m: MathFns): BridgeState
    requires Lawful(m) && ValidBridgeConfig(cfg)
  {
    if !s.enabled then s
    else
      var s3 := PreWriteSpec(cfg, s, t, m);
      var s4 := s3.(writes := WriteStep(cfg.updateHz, rnbo, s3.writes, s3.lastControls.value, t.tMs));
      DebugSpec(cfg, hasDebug, s4, t.tMs, m)
  }

  /** The event log after a call to onDebug, when it exists. */
  function Notify(hasDebug: bool, d: DebugLog, ev: DebugEvent): DebugLog {
    if hasDebug then d.(events := d.events + [ev]) else d
  }

  /** setEnabled(next) */
  function SetEnabledSpec(hasDebug: bool, s: BridgeState, next: bool): (r: BridgeState)
    ensures r.enabled == next
    ensures r.(debug := s.debug) == s.(enabled := next)
    ensures hasDebug ==> r.debug.events == s.debug.events + [EnabledChanged(next)]
    ensures !hasDebug ==> r.debug == s.debug
  {
    s.(enabled := next, debug := Notify(hasDebug, s.debug, EnabledChanged(next)))
  }

  /**
   * recalibrate({ tMs }): the last valid raw quaternion (or none) becomes the
   * baseline, and all five filters and both quantizers start over.
   */
  function RecalibrateSpec(hasDebug: bool, s: BridgeState, tMs: Option<real>): (r: BridgeState)
    ensures r.orient.baseline == s.orient.lastQuatRaw
    ensures r.orient.lastQuatRaw == s.orient.lastQuatRaw && r.orient.lastEuler == s.orient.lastEuler
    ensures r.filters == AllUnseeded && r.writes.seqLen == NoDwell && r.writes.offset == NoDwell
    ensures r.writes.lastSetAt == s.writes.lastSetAt && r.writes.sent == s.writes.sent
    ensures r.enabled == s.enabled && r.lastControls == s.lastControls
    ensures hasDebug ==> r.debug.events == s.debug.events + [Recalibrated(s.enabled, tMs, s.orient.lastQuatRaw.Some?)]
    ensures !hasDebug ==> r.debug == s.debug
  {
    var o := s.orient.(baseline := s.orient.lastQuatRaw);
    s.(orient := o, filters := AllUnseeded, writes := s.writes.(seqLen := NoDwell, offset := NoDwell),
       debug := Notify(hasDebug, s.debug, Recalibrated(s.enabled, tMs, o.baseline.Some?)))
  }

  /** getDebugSnapshot() */
  datatype DebugSnapshot = DebugSnapshot(enabled: bool, baselineSet: bool, eulerDeg: Option<Euler>, controls: Option<BridgeControls>)

  function SnapshotOf(s: BridgeState): DebugSnapshot {
    DebugSnapshot(s.enabled, s.orient.baseline.Some?, s.orient.lastEuler, s.lastControls)
  }

  // --------------------------------------------------------------- properties

  /** Every present control lies in [0, 1]. */
  predicate ControlsInRange(c: BridgeControls) {
    && (c.sx.Some? ==> 0.0 <= c.sx.value <= 1.0)
    && (c.sy.Some? ==> 0.0 <= c.sy.value <= 1.0)
    && (c.sz.Some? ==> 0.0 <= c.sz.value <= 1.0)
    && (c.slin.Some? ==> 0.0 <= c.slin.value <= 1.0)
    && (c.srot.Some? ==> 0.0 <= c.srot.value <= 1.0)
  }

  /** A parameter id and value the bridge may write. */
  predicate ValueOk(c: ParamCall) {
    match c
    case SetParamNormalized(id, v) =>
      (id == "metroRate" || id == "freq" || id == "delay" || id == "degrade") && 0.0 <= v <= 1.0
    case SetParamValue(id, v) =>
      IsInteger(v) && 0.0 <= v && ((id == "seqlength" && v <= SeqLenMax as real) || (id == "offset" && v <= OffsetMax as real))
  }

  /** The call reached the sink through a method the sink has. */
  predicate Reachable(rnbo: Option<SinkCaps>, c: ParamCall) {
    rnbo.Some? && (if c.SetParamNormalized? then rnbo.value.hasSetParamNormalized else rnbo.value.hasSetParamValue)
  }

  predicate CallsOk(rnbo: Option<SinkCaps>, calls: seq<ParamCall>) {
    forall i :: 0 <= i < |calls| ==> ValueOk(calls[i]) && Reachable(rnbo, calls[i])
  }

  /** Both quantizers in range, and every call received well-formed. */
  predicate WritesOk(rnbo: Option<SinkCaps>, w: Writes) {
    && DwellInRange(0, SeqLenMax, w.seqLen)
    && DwellInRange(0, OffsetMax, w.offset)
    && CallsOk(rnbo, w.sent)
  }

  /**
   * The invariant of the bridge: the reported controls are in [0, 1]; every value
   * sent is a normalized value in [0, 1] for metroRate, freq, delay or degrade, or an
   * integer in [0, 7] for seqlength or in [0, 12] for offset; and each call went
   * through a method the sink has.
   */
  predicate Inv(rnbo: Option<SinkCaps>, s: BridgeState) {
    && WritesOk(rnbo, s.writes)
    && (s.lastControls.Some? ==> ControlsInRange(s.lastControls.value))
  }

  /** The sink's log only grows. */
  predicate Extends(a: seq<ParamCall>, b: seq<ParamCall>) {
    |a| <= |b| && b[..|a|] == a
  }

  lemma InitialStateIsValid(rnbo: Option<SinkCaps>, enabled: bool)
    ensures Inv(rnbo, InitialState(enabled))
  {}

  lemma {:induction false} SendKeepsOk(w: Writes, rnbo: Option<SinkCaps>, tMs: Option<real>, updateHz: real, call: ParamCall)
    requires CallsOk(rnbo, w.sent) && ValueOk(call)
    ensures CallsOk(rnbo, Send(w, rnbo, tMs, updateHz, call).sent)
    ensures Extends(w.sent, Send(w, rnbo, tMs, updateHz, call).sent)
  {
    var r := Send(w, rnbo, tMs, updateHz, call);
    var extra := if Admits(w.lastSetAt, call.paramId, tMs, updateHz) then Deliver(rnbo, call) else [];
    assert r.sent == w.sent + extra;
    assert extra == [] || (extra == [call] && Reachable(rnbo, call));
    assert r.sent[..|w.sent|] == w.sent;
  }

  lemma {:induction false} WriteYKeepsOk(w: Writes, rnbo: Option<SinkCaps>, sy: real, tMs: Option<real>, updateHz: real)
    requires WritesOk(rnbo, w) && 0.0 <= sy <= 1.0
    ensures WritesOk(rnbo, WriteY(w, rnbo, sy, tMs, updateHz))
    ensures Extends(w.sent, WriteY(w, rnbo, sy, tMs, updateHz).sent)
  {
    var w1 := Send(w, rnbo, tMs, updateHz, SetParamNormalized("freq", sy));
    SendKeepsOk(w, rnbo, tMs, updateHz, SetParamNormalized("freq", sy));
    var d := SeqLenStep(w1.seqLen, sy, tMs);
    DwellKeepsRange(0, SeqLenMax, SeqLenDwellMs, w1.seqLen, Finite(Round(sy * 7.0) as real), tMs);
    SendKeepsOk(w1.(seqLen := d), rnbo, tMs, updateHz, SetParamValue("seqlength", d.current.value as real));
  }

  lemma {:induction false} WriteZKeepsOk(w: Writes, rnbo: Option<SinkCaps>, sz: real, tMs: Option<real>, updateHz: real)
    requires WritesOk(rnbo, w) && 0.0 <= sz <= 1.0
    ensures WritesOk(rnbo, WriteZ(w, rnbo, sz, tMs, updateHz))
    ensures Extends(w.sent, WriteZ(w, rnbo, sz, tMs, updateHz).sent)
  {
    var d := OffsetStep(w.offset, sz, tMs);
    DwellKeepsRange(0, OffsetMax, OffsetDwellMs, w.offset, Finite(Round(sz * 12.0) as real), tMs);
    SendKeepsOk(w.(offset := d), rnbo, tMs, updateHz, SetParamValue("offset", d.current.value as real));
  }

  lemma ExtendsTrans(a: seq<ParamCall>, b: seq<ParamCall>, c: seq<ParamCall>)
    requires Extends(a, b) && Extends(b, c)
    ensures Extends(a, c)
  {
    assert c[..|a|] == c[..|b|][..|a|];
  }

  lemma {:induction false} WriteFrontKeepsOk(updateHz: real, rnbo: Option<SinkCaps>, w: Writes, c: BridgeControls, tMs: Option<real>)
    requires WritesOk(rnbo, w) && ControlsInRange(c)
    ensures WritesOk(rnbo, WriteFront(updateHz, rnbo, w, c, tMs))
    ensures Extends(w.sent, WriteFront(updateHz, rnbo, w, c, tMs).sent)
  {
    var w1 := if c.sx.Some? then Send(w, rnbo, tMs, updateHz, SetParamNormalized("metroRate", c.sx.value)) else w;
    if c.sx.Some? {
      SendKeepsOk(w, rnbo, tMs, updateHz, SetParamNormalized("metroRate", c.sx.value));
    } else {
      assert w.sent[..|w.sent|] == w.sent;
    }
    if c.sy.Some? {
      WriteYKeepsOk(w1, rnbo, c.sy.value, tMs, updateHz);
      ExtendsTrans(w.sent, w1.sent, WriteY(w1, rnbo, c.sy.value, tMs, updateHz).sent);
    }
  }

  /** The writes of one tick keep the calls well-formed and only append to the sink's log. */
  lemma {:induction false} WriteStepKeepsOk(updateHz: real, rnbo: Option<SinkCaps>, w: Writes, c: BridgeControls, tMs: Option<real>)
    requires WritesOk(rnbo, w) && ControlsInRange(c)
    ensures WritesOk(rnbo, WriteStep(updateHz, rnbo, w, c, tMs))
    ensures Extends(w.sent, WriteStep(updateHz, rnbo, w, c, tMs).sent)
  {
    var w2 := WriteFront(updateHz, rnbo, w, c, tMs);
    WriteFrontKeepsOk(updateHz, rnbo, w, c, tMs);
    var w3 := if c.sz.Some? then WriteZ(w2, rnbo, c.sz.value, tMs, updateHz) else w2;
    if c.sz.Some? {
      WriteZKeepsOk(w2, rnbo, c.sz.value, tMs, updateHz);
      ExtendsTrans(w.sent, w2.sent, w3.sent);
    }
    var w4 := if c.slin.Some? then Send(w3, rnbo, tMs, updateHz, SetParamNormalized("delay", c.slin.value)) else w3;
    if c.slin.Some? {
      SendKeepsOk(w3, rnbo, tMs, updateHz, SetParamNormalized("delay", c.slin.value));
      ExtendsTrans(w.sent, w3.sent, w4.sent);
    }
    if c.srot.Some? {
      SendKeepsOk(w4, rnbo, tMs, updateHz, SetParamNormalized("degrade", c.srot.value));
      ExtendsTrans(w.sent, w4.sent, Send(w4, rnbo, tMs, updateHz, SetParamNormalized("degrade", c.srot.value)).sent);
    }
  }

  /** What a tick reports: present orientation controls exactly when the Euler angles were computed. */
  lemma TickControls(cfg: BridgeConfig, rnbo: Option<SinkCaps>, hasDebug: bool, s: BridgeState, t: Tick, m: MathFns)
    requires Lawful(m) && ValidBridgeConfig(cfg) && s.enabled
    ensures var r := TickSpec(cfg, rnbo, hasDebug, s, t, m);
      var e := TickEuler(s.orient, Controls.SafeQuat(t.quaternion), m);
      var lastLin := if t.linearAcceleration.Some? then t.linearAcceleration else s.lastLin;
      var lastRot := if t.rotationRate.Some? then t.rotationRate else s.lastRot;
      && r.enabled
      && r.lastControls.Some?
      && ControlsInRange(r.lastControls.value)
      && (r.lastControls.value.sx.Some? <==> e.Some?)
      && (r.lastControls.value.sy.Some? <==> e.Some?)
      && (r.lastControls.value.sz.Some? <==> e.Some?)
      && (r.lastControls.value.slin.Some? <==> BridgeVecMag(lastLin, m).Some?)
      && (r.lastControls.value.srot.Some? <==> BridgeVecMag(lastRot, m).Some?)
      && r.lastLin == lastLin && r.lastRot == lastRot
  {}

  /** Each tick keeps the invariant, and the sink's log only grows. */
  lemma TickKeepsInv(cfg: BridgeConfig, rnbo: Option<SinkCaps>, hasDebug: bool, s: BridgeState, t: Tick, m: MathFns)
    requires Lawful(m) && ValidBridgeConfig(cfg) && Inv(rnbo, s)
    ensures Inv(rnbo, TickSpec(cfg, rnbo, hasDebug, s, t, m))
    ensures Extends(s.writes.sent, TickSpec(cfg, rnbo, hasDebug, s, t, m).writes.sent)
  {
    if s.enabled {
      TickControls(cfg, rnbo, hasDebug, s, t, m);
      var s3 := PreWriteSpec(cfg, s, t, m);
      WriteStepKeepsOk(cfg.updateHz, rnbo, s3.writes, s3.lastControls.value, t.tMs);
    } else {
      assert s.writes.sent[..|s.writes.sent|] == s.writes.sent;
    }
  }

  /** recalibrate and setEnabled keep the invariant. */
  lemma RecalibrateAndSetEnabledKeepInv(rnbo: Option<SinkCaps>, hasDebug: bool, s: BridgeState, tMs: Option<real>, next: bool)
    requires Inv(rnbo, s)
    ensures Inv(rnbo, RecalibrateSpec(hasDebug, s, tMs))
    ensures Inv(rnbo, SetEnabledSpec(hasDebug, s, next))
  {}

  /** While disabled, tick changes nothing at all: no state, no write, no debug event. */
  lemma DisabledTickIsNoOp(cfg: BridgeConfig, rnbo: Option<SinkCaps>, hasDebug: bool, s: BridgeState, t: Tick, m: MathFns)
    requires Lawful(m) && ValidBridgeConfig(cfg) && !s.enabled
    ensures TickSpec(cfg, rnbo, hasDebug, s, t, m) == s
  {}

  /** The first valid quaternion becomes the baseline; once set, only recalibrate replaces it. */
  lemma BaselineArming(cfg: BridgeConfig, rnbo: Option<SinkCaps>, hasDebug: bool, s: BridgeState, t: Tick, m: MathFns)
    requires Lawful(m) && ValidBridgeConfig(cfg) && s.enabled
    ensures var r := TickSpec(cfg, rnbo, hasDebug, s, t, m);
      var q := Controls.SafeQuat(t.quaternion);
      && (s.orient.baseline.None? && q.Some? ==> r.orient.baseline == q && r.orient.lastQuatRaw == q)
      && (s.orient.baseline.Some? ==> r.orient.baseline == s.orient.baseline)
      && (q.None? ==> r.orient == s.orient)
  {}

  /**
   * Recalibrating and then ticking with the same non-zero quaternion gives Euler
   * angles (0, 0, 0) and sx = sy = sz = 0: the filters start over from the ramp's 0.
   */
  lemma RecalibrateThenSameQuaternionIsCentered(cfg: BridgeConfig, rnbo: Option<SinkCaps>, hasDebug: bool,
                                                 s: BridgeState, tRecal: Option<real>, t: Tick, m: MathFns)
    requires Lawful(m) && ValidBridgeConfig(cfg) && s.enabled
    requires Controls.SafeQuat(t.quaternion).Some? && Controls.SafeQuat(t.quaternion).value != Zero
    requires s.orient.lastQuatRaw == Controls.SafeQuat(t.quaternion)
    ensures var r := TickSpec(cfg, rnbo, hasDebug, RecalibrateSpec(hasDebug, s, tRecal), t, m);
      && r.orient.lastEuler == Some(Euler(0.0, 0.0, 0.0))
      && r.lastControls.Some?
      && r.lastControls.value.sx == Some(0.0)
      && r.lastControls.value.sy == Some(0.0)
      && r.lastControls.value.sz == Some(0.0)
  {
    var q := Controls.SafeQuat(t.quaternion).value;
    var s0 := RecalibrateSpec(hasDebug, s, tRecal);
    InverseIsTwoSided(q);
    EulerOfIdentity(m);
    assert TickEuler(s0.orient, Some(q), m) == Some(Euler(0.0, 0.0, 0.0));
  }

  /**
   * onDebug fires from tick exactly when it exists, the bridge is enabled and the
   * debug interval has passed; it then records tMs and receives one report.
   */
  lemma TickDebugThrottle(cfg: BridgeConfig, rnbo: Option<SinkCaps>, hasDebug: bool, s: BridgeState, t: Tick, m: MathFns)
    requires Lawful(m) && ValidBridgeConfig(cfg)
    ensures var r := TickSpec(cfg, rnbo, hasDebug, s, t, m);
      if hasDebug && s.enabled && DebugDue(s.debug, t.tMs, cfg.debugHz) then
        && r.debug.lastAtMs == t.tMs
        && |r.debug.events| == |s.debug.events| + 1
        && r.debug.events[..|s.debug.events|] == s.debug.events
      else r.debug == s.debug
  {
    if hasDebug && s.enabled && DebugDue(s.debug, t.tMs, cfg.debugHz) {
      var r := TickSpec(cfg, rnbo, hasDebug, s, t, m);
      assert r.debug.events[..|s.debug.events|] == s.debug.events;
    }
  }

  /** Two ticks in a row that both call onDebug are at least 1000 / max(1, debugHz) ms apart. */
  lemma DebugAtMostOncePerInterval(cfg: BridgeConfig, rnbo: Option<SinkCaps>, hasDebug: bool, s: BridgeState,
                                   t1: Tick, t2: Tick, m: MathFns)
    requires Lawful(m) && ValidBridgeConfig(cfg)
    requires t1.tMs.Some? && t2.tMs.Some?
    requires var s1 := TickSpec(cfg, rnbo, hasDebug, s, t1, m);
      && |s1.debug.events| > |s.debug.events|
      && |TickSpec(cfg, rnbo, hasDebug, s1, t2, m).debug.events| > |s1.debug.events|
    ensures t2.tMs.value - t1.tMs.value >= MinIntervalMs(cfg.debugHz)
  {
    var s1 := TickSpec(cfg, rnbo, hasDebug, s, t1, m);
    TickDebugThrottle(cfg, rnbo, hasDebug, s, t1, m);
    TickDebugThrottle(cfg, rnbo, hasDebug, s1, t2, m);
  }

  /** The six parameter ids a tick writes. */
  const WriteKeys: set<string> := {"metroRate", "freq", "seqlength", "offset", "delay", "degrade"}

  /**
   * From w0 to w, within one tick at tMs, only keys in `used` were gated: each call
   * appended since w0 was admitted by the gate as it stood in w0 and recorded tMs
   * for its key, and the keys outside `used` kept their records.
   */
  ghost predicate GatedSince(w0: Writes, w: Writes, tMs: Option<real>, updateHz: real, used: set<string>) {
    && Extends(w0.sent, w.sent)
    && (forall i :: |w0.sent| <= i < |w.sent| ==>
          && w.sent[i].paramId in used
          && Admits(w0.lastSetAt, w.sent[i].paramId, tMs, updateHz)
          && w.sent[i].paramId in w.lastSetAt
          && w.lastSetAt[w.sent[i].paramId] == tMs)
    && (forall k :: k !in used ==>
          (k in w.lastSetAt <==> k in w0.lastSetAt) && (k in w0.lastSetAt ==> w.lastSetAt[k] == w0.lastSetAt[k]))
  }

  lemma GatedWiden(w0: Writes, w: Writes, tMs: Option<real>, updateHz: real, used: set<string>, k: string)
    requires GatedSince(w0, w, tMs, updateHz, used)
    ensures GatedSince(w0, w, tMs, updateHz, used + {k})
  {}

  lemma {:induction false} SendGated(w0: Writes, w: Writes, rnbo: Option<SinkCaps>, tMs: Option<real>, updateHz: real,
                                     used: set<string>, call: ParamCall)
    requires GatedSince(w0, w, tMs, updateHz, used) && call.paramId !in used
    ensures GatedSince(w0, Send(w, rnbo, tMs, updateHz, call), tMs, updateHz, used + {call.paramId})
  {
    var r := Send(w, rnbo, tMs, updateHz, call);
    var k := call.paramId;
    forall i | |w0.sent| <= i < |r.sent|
      ensures && r.sent[i].paramId in used + {k}
              && Admits(w0.lastSetAt, r.sent[i].paramId, tMs, updateHz)
              && r.sent[i].paramId in r.lastSetAt
              && r.lastSetAt[r.sent[i].paramId] == tMs
    {
      if i < |w.sent| {
        assert r.sent[i] == w.sent[i];
        GateKeysIndependent(w.lastSetAt, k, w.sent[i].paramId, tMs, updateHz);
      } else {
        assert r.sent[i] == call;
      }
    }
    forall o | o !in used + {k}
      ensures (o in r.lastSetAt <==> o in w0.lastSetAt) && (o in w0.lastSetAt ==> r.lastSetAt[o] == w0.lastSetAt[o])
    {
      GateKeysIndependent(w.lastSetAt, k, o, tMs, updateHz);
    }
    assert r.sent[..|w.sent|] == w.sent;
    ExtendsTrans(w0.sent, w.sent, r.sent);
  }

  /** Optional sends of each key in turn, with the keys used so far fixed whatever was sent. */
  lemma {:induction false} MaybeSendGated(w0: Writes, w: Writes, rnbo: Option<SinkCaps>, tMs: Option<real>, updateHz: real,
                                          used: set<string>, v: Option<real>, k: string, normalized: bool)
    requires GatedSince(w0, w, tMs, updateHz, used) && k !in used
    ensures v.Some? ==> GatedSince(w0, Send(w, rnbo, tMs, updateHz,
                          if normalized then SetParamNormalized(k, v.value) else SetParamValue(k, v.value)),
                          tMs, updateHz, used + {k})
    ensures v.None? ==> GatedSince(w0, w, tMs, updateHz, used + {k})
  {
    if v.Some? {
      SendGated(w0, w, rnbo, tMs, updateHz, used,
        if normalized then SetParamNormalized(k, v.value) else SetParamValue(k, v.value));
    } else {
      GatedWiden(w0, w, tMs, updateHz, used, k);
    }
  }

  lemma {:induction false} WriteYGated(w0: Writes, w: Writes, rnbo: Option<SinkCaps>, sy: real, tMs: Option<real>, updateHz: real,
                                       used: set<string>)
    requires GatedSince(w0, w, tMs, updateHz, used) && "freq" !in used && "seqlength" !in used
    ensures GatedSince(w0, WriteY(w, rnbo, sy, tMs, updateHz), tMs, updateHz, used + {"freq", "seqlength"})
  {
    var wf := Send(w, rnbo, tMs, updateHz, SetParamNormalized("freq", sy));
    SendGated(w0, w, rnbo, tMs, updateHz, used, SetParamNormalized("freq", sy));
    var d := SeqLenStep(wf.seqLen, sy, tMs);
    SendGated(w0, wf.(seqLen := d), rnbo, tMs, updateHz, used + {"freq"}, SetParamValue("seqlength", d.current.value as real));
    assert used + {"freq"} + {"seqlength"} == used + {"freq", "seqlength"};
  }

  lemma {:induction false} WriteZGated(w0: Writes, w: Writes, rnbo: Option<SinkCaps>, sz: real, tMs: Option<real>, updateHz: real,
                                       used: set<string>)
    requires GatedSince(w0, w, tMs, updateHz, used) && "offset" !in used
    ensures GatedSince(w0, WriteZ(w, rnbo, sz, tMs, updateHz), tMs, updateHz, used + {"offset"})
  {
    var d := OffsetStep(w.offset, sz, tMs);
    SendGated(w0, w.(offset := d), rnbo, tMs, updateHz, used, SetParamValue("offset", d.current.value as real));
  }

  /** The first stages of a tick's writes: metroRate, then freq and seqlength. */
  function WriteFront(updateHz: real, rnbo: Option<SinkCaps>, w: Writes, c: BridgeControls, tMs: Option<real>): Writes {
    var w1 := if c.sx.Some? then Send(w, rnbo, tMs, updateHz, SetParamNormalized("metroRate", c.sx.value)) else w;
    if c.sy.Some? then WriteY(w1, rnbo, c.sy.value, tMs, updateHz) else w1
  }

  lemma {:induction false} WriteFrontGated(updateHz: real, rnbo: Option<SinkCaps>, w: Writes, c: BridgeControls, tMs: Option<real>)
    ensures GatedSince(w, WriteFront(updateHz, rnbo, w, c, tMs), tMs, updateHz, {"metroRate", "freq", "seqlength"})
  {
    assert w.sent[..|w.sent|] == w.sent;
    assert GatedSince(w, w, tMs, updateHz, {});
    var w1 := if c.sx.Some? then Send(w, rnbo, tMs, updateHz, SetParamNormalized("metroRate", c.sx.value)) else w;
    MaybeSendGated(w, w, rnbo, tMs, updateHz, {}, c.sx, "metroRate", true);
    var u1: set<string> := {"metroRate"};
    assert {} + {"metroRate"} == u1;
    if c.sy.Some? {
      WriteYGated(w, w1, rnbo, c.sy.value, tMs, updateHz, u1);
    } else {
      GatedWiden(w, w1, tMs, updateHz, u1, "freq");
      GatedWiden(w, w1, tMs, updateHz, u1 + {"freq"}, "seqlength");
    }
    assert u1 + {"freq", "seqlength"} == u1 + {"freq"} + {"seqlength"} == {"metroRate", "freq", "seqlength"};
  }

  /** One tick's writes are gated per key against the records at the start of the tick. */
  lemma {:induction false} WriteStepGated(updateHz: real, rnbo: Option<SinkCaps>, w: Writes, c: BridgeControls, tMs: Option<real>)
    ensures GatedSince(w, WriteStep(updateHz, rnbo, w, c, tMs), tMs, updateHz, WriteKeys)
  {
    var w2 := WriteFront(updateHz, rnbo, w, c, tMs);
    var u2: set<string> := {"metroRate", "freq", "seqlength"};
    WriteFrontGated(updateHz, rnbo, w, c, tMs);
    var w3 := if c.sz.Some? then WriteZ(w2, rnbo, c.sz.value, tMs, updateHz) else w2;
    var u3: set<string> := {"metroRate", "freq", "seqlength", "offset"};
    if c.sz.Some? {
      WriteZGated(w, w2, rnbo, c.sz.value, tMs, updateHz, u2);
    } else {
      GatedWiden(w, w2, tMs, updateHz, u2, "offset");
    }
    assert u2 + {"offset"} == u3;
    var w4 := if c.slin.Some? then Send(w3, rnbo, tMs, updateHz, SetParamNormalized("delay", c.slin.value)) else w3;
    MaybeSendGated(w, w3, rnbo, tMs, updateHz, u3, c.slin, "delay", true);
    MaybeSendGated(w, w4, rnbo, tMs, updateHz, u3 + {"delay"}, c.srot, "degrade", true);
    assert u3 + {"delay"} + {"degrade"} == WriteKeys;
  }

  lemma TickGated(cfg: BridgeConfig, rnbo: Option<SinkCaps>, hasDebug: bool, s: BridgeState, t: Tick, m: MathFns)
    requires Lawful(m) && ValidBridgeConfig(cfg) && s.enabled
    ensures GatedSince(s.writes, TickSpec(cfg, rnbo, hasDebug, s, t, m).writes, t.tMs, cfg.updateHz, WriteKeys)
  {
    var s3 := PreWriteSpec(cfg, s, t, m);
    WriteStepGated(cfg.updateHz, rnbo, s3.writes, s3.lastControls.value, t.tMs);
  }

  /** Across two gated stretches at t1 and then t2, a key written in both was written at least the interval apart. */
  lemma GatedTwiceSpaced(w0: Writes, w1: Writes, w2: Writes, t1: real, t2: real, updateHz: real, used: set<string>, i: nat, j: nat)
    requires GatedSince(w0, w1, Some(t1), updateHz, used) && GatedSince(w1, w2, Some(t2), updateHz, used)
    requires |w0.sent| <= i < |w1.sent| <= j < |w2.sent|
    requires w2.sent[j].paramId == w1.sent[i].paramId
    ensures t2 - t1 >= MinIntervalMs(updateHz)
  {
    var k := w1.sent[i].paramId;
    assert k in w1.lastSetAt && w1.lastSetAt[k] == Some(t1);
    assert Admits(w1.lastSetAt, k, Some(t2), updateHz);
  }

  /**
   * Two writes of one parameter in consecutive ticks at finite times are at least
   * 1000 / max(1, updateHz) ms apart: the per-key gate of canSetNow.
   */
  lemma WritesSpacedPerKey(cfg: BridgeConfig, rnbo: Option<SinkCaps>, hasDebug: bool, s: BridgeState,
                           t1: Tick, t2: Tick, m: MathFns, i: nat, j: nat)
    requires Lawful(m) && ValidBridgeConfig(cfg) && s.enabled
    requires t1.tMs.Some? && t2.tMs.Some?
    requires var s1 := TickSpec(cfg, rnbo, hasDebug, s, t1, m);
      var s2 := TickSpec(cfg, rnbo, hasDebug, s1, t2, m);
      && |s.writes.sent| <= i < |s1.writes.sent| <= j < |s2.writes.sent|
      && s2.writes.sent[j].paramId == s1.writes.sent[i].paramId
    ensures t2.tMs.value - t1.tMs.value >= MinIntervalMs(cfg.updateHz)
  {
    var s1 := TickSpec(cfg, rnbo, hasDebug, s, t1, m);
    var s2 := TickSpec(cfg, rnbo, hasDebug, s1, t2, m);
    TickGated(cfg, rnbo, hasDebug, s, t1, m);
    TickEnabledStays(cfg, rnbo, hasDebug, s, t1, m);
    TickGated(cfg, rnbo, hasDebug, s1, t2, m);
    GatedTwiceSpaced(s.writes, s1.writes, s2.writes, t1.tMs.value, t2.tMs.value, cfg.updateHz, WriteKeys, i, j);
  }

  lemma TickEnabledStays(cfg: BridgeConfig, rnbo: Option<SinkCaps>, hasDebug: bool, s: BridgeState, t: Tick, m: MathFns)
    requires Lawful(m) && ValidBridgeConfig(cfg)
    ensures TickSpec(cfg, rnbo, hasDebug, s, t, m).enabled == s.enabled
  {}

  /**
   * The first write of every key goes through: a tick that finds no key recorded,
   * a sink with both methods and all five controls present sends all six calls in
   * the source's order, with the quantizers' new values for seqlength and offset.
   */
  lemma FirstWritesAllGoThrough(updateHz: real, w: Writes, c: BridgeControls, tMs: Option<real>)
    requires w.lastSetAt == map[]
    requires c.sx.Some? && c.sy.Some? && c.sz.Some? && c.slin.Some? && c.srot.Some?
    ensures var rnbo := Some(SinkCaps(true, true));
      var r := WriteStep(updateHz, rnbo, w, c, tMs);
      r.sent == w.sent + [SetParamNormalized("metroRate", c.sx.value),
                          SetParamNormalized("freq", c.sy.value),
                          SetParamValue("seqlength", r.seqLen.current.value as real),
                          SetParamValue("offset", r.offset.current.value as real),
                          SetParamNormalized("delay", c.slin.value),
                          SetParamNormalized("degrade", c.srot.value)]
  {
    var rnbo := Some(SinkCaps(true, true));
    var w2 := WriteFront(updateHz, rnbo, w, c, tMs);
    FirstFrontWritesGoThrough(updateHz, w, c, tMs);
    var w3 := WriteZ(w2, rnbo, c.sz.value, tMs, updateHz);
    assert "offset" !in w2.lastSetAt;
    var w4 := Send(w3, rnbo, tMs, updateHz, SetParamNormalized("delay", c.slin.value));
    assert "delay" !in w3.lastSetAt;
    assert "degrade" !in w4.lastSetAt;
  }

  lemma FirstFrontWritesGoThrough(updateHz: real, w: Writes, c: BridgeControls, tMs: Option<real>)
    requires w.lastSetAt == map[]
    requires c.sx.Some? && c.sy.Some?
    ensures var rnbo := Some(SinkCaps(true, true));
      var r := WriteFront(updateHz, rnbo, w, c, tMs);
      && r.sent == w.sent + [SetParamNormalized("metroRate", c.sx.value),
                             SetParamNormalized("freq", c.sy.value),
                             SetParamValue("seqlength", r.seqLen.current.value as real)]
      && r.lastSetAt.Keys == {"metroRate", "freq", "seqlength"}
      && r.offset == w.offset
  {
    var rnbo := Some(SinkCaps(true, true));
    var w1 := Send(w, rnbo, tMs, updateHz, SetParamNormalized("metroRate", c.sx.value));
    var wf := Send(w1, rnbo, tMs, updateHz, SetParamNormalized("freq", c.sy.value));
    assert "freq" !in w1.lastSetAt;
    assert "seqlength" !in wf.lastSetAt;
  }

  /** Without an onDebug callback no debug event is ever produced. */
  lemma NoCallbackNoEvents(cfg: BridgeConfig, rnbo: Option<SinkCaps>, s: BridgeState, t: Tick, tMs: Option<real>, next: bool, m: MathFns)
    requires Lawful(m) && ValidBridgeConfig(cfg)
    ensures TickSpec(cfg, rnbo, false, s, t, m).debug == s.debug
    ensures RecalibrateSpec(false, s, tMs).debug == s.debug
    ensures SetEnabledSpec(false, s, next).debug == s.debug
  {
    TickDebugThrottle(cfg, rnbo, false, s, t, m);
  }

  // --------------------------------------------------------------- the object

  /** The object createMotionToRnboBridge returns, with its filters and quantizers. */
  class MotionToRnboBridge {
    const cfg: BridgeConfig
    const rnbo: Option<SinkCaps>
    const hasDebug: bool
    const fX: EmaFilter
    const fY: EmaFilter
    const fZ: EmaFilter
    const fLin: EmaFilter
    const fRot: EmaFilter
    const seqLenQuant: QuantizedDwell
    const offsetQuant: QuantizedDwell
    var enabled: bool
    var baselineQuat: Option<Quat>
    var lastQuatRaw: Option<Quat>
    var lastEulerDeg: Option<Euler>
    var lastLin: Option<Controls.Reading>
    var lastRot: Option<Controls.Reading>
    var lastControls: Option<BridgeControls>
    var lastSetAt: RateState
    var sent: seq<ParamCall>
    var lastDebugAtMs: Option<real>
    var debugEvents: seq<DebugEvent>

    ghost predicate Valid()
      reads this, fX, fY, fZ, fLin, fRot, seqLenQuant, offsetQuant
    {
      && ValidBridgeConfig(cfg)
      && fX != fY && fX != fZ && fX != fLin && fX != fRot
      && fY != fZ && fY != fLin && fY != fRot
      && fZ != fLin && fZ != fRot
      && fLin != fRot
      && seqLenQuant != offsetQuant
      && fX.tau == cfg.orientationTau && fY.tau == cfg.orientationTau && fZ.tau == cfg.orientationTau
      && fLin.tau == cfg.accelTau && fRot.tau == cfg.accelTau
      && seqLenQuant.min == 0 && seqLenQuant.max == SeqLenMax && seqLenQuant.dwellMs == SeqLenDwellMs
      && offsetQuant.min == 0 && offsetQuant.max == OffsetMax && offsetQuant.dwellMs == OffsetDwellMs
    }

    function OrientState(): Orientation
      reads this
    {
      Orientation(baselineQuat, lastQuatRaw, lastEulerDeg)
    }

    function FilterStates(): Smoothers
      reads fX, fY, fZ, fLin, fRot
    {
      Smoothers(fX.State(), fY.State(), fZ.State(), fLin.State(), fRot.State())
    }

    function WriteState(): Writes
      reads this, seqLenQuant, offsetQuant
    {
      Writes(lastSetAt, seqLenQuant.State(), offsetQuant.State(), sent)
    }

    function State(): BridgeState
      reads this, fX, fY, fZ, fLin, fRot, seqLenQuant, offsetQuant
    {
      BridgeState(enabled, OrientState(), lastLin, lastRot,
        FilterStates(), lastControls, WriteState(), DebugLog(lastDebugAtMs, debugEvents))
    }

    /** createMotionToRnboBridge({ rnbo, onDebug, config }), the options already merged. */
    constructor(rnbo: Option<SinkCaps>, hasDebug: bool, enabled: bool, updateHz: real, debugHz: real,
                linAccMax: real, rotRateMax: real, orientationTau: Num, accelTau: Num)
      ensures Valid()
      ensures this.rnbo == rnbo && this.hasDebug == hasDebug
      ensures cfg == BridgeConfig(updateHz, debugHz, linAccMax, rotRateMax, TauFrom(orientationTau), TauFrom(accelTau))
      ensures State() == InitialState(enabled)
    {
      this.rnbo := rnbo;
      this.hasDebug := hasDebug;
      cfg := BridgeConfig(updateHz, debugHz, linAccMax, rotRateMax, TauFrom(orientationTau), TauFrom(accelTau));
      fX := new EmaFilter(orientationTau);
      fY := new EmaFilter(orientationTau);
      fZ := new EmaFilter(orientationTau);
      fLin := new EmaFilter(accelTau);
      fRot := new EmaFilter(accelTau);
      seqLenQuant := new QuantizedDwell(0, SeqLenMax, SeqLenDwellMs);
      offsetQuant := new QuantizedDwell(0, OffsetMax, OffsetDwellMs);
      this.enabled := enabled;
      baselineQuat := None;
      lastQuatRaw := None;
      lastEulerDeg := None;
      lastLin := None;
      lastRot := None;
      lastControls := None;
      lastSetAt := map[];
      sent := [];
      lastDebugAtMs := None;
      debugEvents := [];
    }

    /** setEnabled(next) */
    method SetEnabled(next: bool)
      requires Valid()
      modifies this
      ensures Valid()
      ensures State() == SetEnabledSpec(hasDebug, old(State()), next)
    {
      enabled := next;
      if hasDebug {
        debugEvents := debugEvents + [EnabledChanged(enabled)];
      }
    }

    /** recalibrate({ tMs }) */
    method Recalibrate(tMs: Option<real>)
      requires Valid()
      modifies this, fX, fY, fZ, fLin, fRot, seqLenQuant, offsetQuant
      ensures Valid()
      ensures State() == RecalibrateSpec(hasDebug, old(State()), tMs)
    {
      baselineQuat := lastQuatRaw;
      fX.Reset(None, None);
      fY.Reset(None, None);
      fZ.Reset(None, None);
      fLin.Reset(None, None);
      fRot.Reset(None, None);
      seqLenQuant.Reset(None);
      offsetQuant.Reset(None);
      if hasDebug {
        debugEvents := debugEvents + [Recalibrated(enabled, tMs, baselineQuat.Some?)];
      }
    }

    /** canSetNow(paramId, tMs) followed by the call, when let through. */
    method SendCall(tMs: Option<real>, call: ParamCall)
      modifies this`lastSetAt, this`sent
      ensures WriteState() == Send(old(WriteState()), rnbo, tMs, cfg.updateHz, call)
    {
      var g := CanSetNow(lastSetAt, call.paramId, tMs, cfg.updateHz);
      lastSetAt := g.last;
      if g.ok {
        sent := sent + Deliver(rnbo, call);
      }
    }

    /** tick({ tMs, linearAcceleration, rotationRate, quaternion }) */
    method Tick(t: Tick, m: MathFns)
      requires Valid() && Lawful(m)
      modifies this, fX, fY, fZ, fLin, fRot, seqLenQuant, offsetQuant
      ensures Valid()
      ensures State() == TickSpec(cfg, rnbo, hasDebug, old(State()), t, m)
    {
      if !enabled {
        return;
      }
      TickUpToWrites(t, m);
      ghost var s3 := State();
      assert s3 == PreWriteSpec(cfg, old(State()), t, m);
      TickWrites(lastControls.value, t.tMs);
      assert State() == s3.(writes := WriteStep(cfg.updateHz, rnbo, s3.writes, s3.lastControls.value, t.tMs));
      TickDebug(t.tMs, m);
    }

    /** The orientation, readings and filtering part of tick. */
    method TickUpToWrites(t: Tick, m: MathFns)
      requires Valid() && Lawful(m)
      modifies this`baselineQuat, this`lastQuatRaw, this`lastEulerDeg, this`lastLin, this`lastRot, this`lastControls
      modifies fX, fY, fZ, fLin, fRot
      ensures Valid()
      ensures State() == PreWriteSpec(cfg, old(State()), t, m)
    {
      var q := Controls.SafeQuat(t.quaternion);
      var e := TickOrientation(q, m);
      if t.linearAcceleration.Some? {
        lastLin := t.linearAcceleration;
      }
      if t.rotationRate.Some? {
        lastRot := t.rotationRate;
      }
      assert State() == StoreReadings(old(State()).(orient := OrientStep(old(State()).orient, q, m)), t);
      SmoothAndRecord(e, t.tMs, m);
    }

    /** Filtering from the stored readings, and the new lastControls. */
    method SmoothAndRecord(e: Option<Euler>, tMs: Option<real>, m: MathFns)
      requires Valid() && Lawful(m)
      modifies this`lastControls, fX, fY, fZ, fLin, fRot
      ensures Valid()
      ensures State() == SmoothSpec(cfg, old(State()), e, tMs, m)
    {
      var lin01 := Unit(BridgeVecMag(lastLin, m), cfg.linAccMax);
      var rot01 := Unit(BridgeVecMag(lastRot, m), cfg.rotRateMax);
      var c := SmoothAll(e, lin01, rot01, tMs, m);
      lastControls := Some(c);
    }

    /** The orientation part of tick: returns the Euler angles of this tick, if any. */
    method TickOrientation(q: Option<Quat>, m: MathFns) returns (e: Option<Euler>)
      requires Lawful(m)
      modifies this`baselineQuat, this`lastQuatRaw, this`lastEulerDeg
      ensures OrientState() == OrientStep(old(OrientState()), q, m)
      ensures e == TickEuler(old(OrientState()), q, m)
    {
      var o := OrientState();
      e := TickEuler(o, q, m);
      if q.Some? {
        lastQuatRaw := q;
        if baselineQuat.None? {
          baselineQuat := q;
        }
        if e.Some? {
          lastEulerDeg := e;
        }
        assert OrientState() == Orientation(Some(ArmedBaseline(o, q.value)), q, if e.Some? then e else o.lastEuler);
      }
    }

    /** Feeds each filter whose input is present, and reads the five controls. */
    method SmoothAll(e: Option<Euler>, lin01: Option<real>, rot01: Option<real>, tMs: Option<real>, m: MathFns)
      returns (c: BridgeControls)
      requires Valid() && Lawful(m)
      modifies fX, fY, fZ, fLin, fRot
      ensures Valid()
      ensures FilterStates() == SmoothStep(cfg, old(FilterStates()), e, lin01, rot01, tMs, m)
      ensures c == ControlsOf(FilterStates(), e, lin01, rot01)
    {
      var sx := SmoothOne(fX, X01(e), tMs, m);
      var sy := SmoothOne(fY, Y01(e), tMs, m);
      var sz := SmoothOne(fZ, Z01(e), tMs, m);
      var slin := SmoothOne(fLin, lin01, tMs, m);
      var srot := SmoothOne(fRot, rot01, tMs, m);
      c := BridgeControls(sx, sy, sz, slin, srot);
    }

    /** `x == null ? null : clamp(f.update(x, tMs), 0, 1)` on one filter. */
    static method SmoothOne(f: EmaFilter, x: Option<real>, tMs: Option<real>, m: MathFns) returns (r: Option<real>)
      requires f.Valid() && Lawful(m)
      modifies f
      ensures f.Valid()
      ensures f.State() == Smooth(f.tau, old(f.State()), x, tMs, m)
      ensures r == Smoothed(x, f.State())
    {
      if x.None? {
        return None;
      }
      var y := f.Update(Finite(x.value), tMs, m);
      r := Some(Clamp(OfOption(y), 0.0, 1.0));
    }

    /** The six gated writes of tick. */
    method TickWrites(c: BridgeControls, tMs: Option<real>)
      requires Valid()
      modifies this`lastSetAt, this`sent, seqLenQuant, offsetQuant
      ensures Valid()
      ensures WriteState() == WriteStep(cfg.updateHz, rnbo, old(WriteState()), c, tMs)
    {
      if c.sx.Some? {
        SendCall(tMs, SetParamNormalized("metroRate", c.sx.value));
      }
      if c.sy.Some? {
        WriteSeqLength(c.sy.value, tMs);
      }
      if c.sz.Some? {
        WriteOffset(c.sz.value, tMs);
      }
      if c.slin.Some? {
        SendCall(tMs, SetParamNormalized("delay", c.slin.value));
      }
      if c.srot.Some? {
        SendCall(tMs, SetParamNormalized("degrade", c.srot.value));
      }
    }

    /** Y: freq, then the quantized seqlength. */
    method WriteSeqLength(sy: real, tMs: Option<real>)
      requires Valid()
      modifies this`lastSetAt, this`sent, seqLenQuant
      ensures WriteState() == WriteY(old(WriteState()), rnbo, sy, tMs, cfg.updateHz)
    {
      SendCall(tMs, SetParamNormalized("freq", sy));
      var target := Round(sy * 7.0);
      var seqLen := seqLenQuant.Update(Finite(target as real), tMs);
      SendCall(tMs, SetParamValue("seqlength", seqLen as real));
    }

    /** Z: the quantized offset. */
    method WriteOffset(sz: real, tMs: Option<real>)
      requires Valid()
      modifies this`lastSetAt, this`sent, offsetQuant
      ensures WriteState() == WriteZ(old(WriteState()), rnbo, sz, tMs, cfg.updateHz)
    {
      var target := Round(sz * 12.0);
      var off := offsetQuant.Update(Finite(target as real), tMs);
      SendCall(tMs, SetParamValue("offset", off as real));
    }

    /** The debug throttle at the end of tick. */
    method TickDebug(tMs: Option<real>, m: MathFns)
      requires Lawful(m) && lastControls.Some?
      modifies this`lastDebugAtMs, this`debugEvents
      ensures State() == DebugSpec(cfg, hasDebug, old(State()), tMs, m)
    {
      if hasDebug && DebugDue(DebugLog(lastDebugAtMs, debugEvents), tMs, cfg.debugHz) {
        lastDebugAtMs := tMs;
        debugEvents := debugEvents + [TickReport(enabled, tMs.value, baselineQuat.Some?, lastEulerDeg,
          BridgeVecMag(lastLin, m), BridgeVecMag(lastRot, m), lastControls.value)];
      }
    }

    /** getDebugSnapshot() */
    function GetDebugSnapshot(): (r: DebugSnapshot)
      reads this, fX, fY, fZ, fLin, fRot, seqLenQuant, offsetQuant
      ensures r == SnapshotOf(State())
    {
      DebugSnapshot(enabled, baselineQuat.Some?, lastEulerDeg, lastControls)
    }
  }
}
