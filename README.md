# Motion sensors to RNBO: a verified model of the signal pipeline

This project is a Dafny model of the part of the motion-sensors → RNBO bridge that
does numerical and state-machine work. A phone's orientation quaternion and its
motion readings go in. Smoothed, rate-limited parameter writes to an RNBO patch
come out. The model covers these pieces:

- **Quaternion maths** (`quaternion.dfy`): multiply, conjugate, norm, inverse, and
  the quaternion built from the DeviceOrientation angles.
- **Scalar filters** (`filters.dfy`): `clamp`, the time-based exponential moving
  average `EmaFilter`, and the hysteresis quantizer `QuantizedDwell`.
- **The keyed rate gate `canSetNow`** (`rate_gate.dfy`). The mapping engine and the
  bridge each carry their own copy of it.
- **The parameter sink** (`sink.dfy`). It is a log of `setParamNormalized` /
  `setParamValue` calls. Each call reaches the log only if the sink has that method.
- **The motion mapper's controls aggregator `createMotionControls`**
  (`motion_controls.dfy`): baseline arming, the relative rotation vector, signed
  roll/pitch/yaw, and magnitude controls.
- **The mapping engine `createMappingEngine`** (`mapping_engine.dfy`): it routes
  control sources to parameter ids through the user's table.
- **The direct bridge `createMotionToRnboBridge`** (`motion_to_rnbo.dfy`): Euler
  angles, mirrored 0..1 ramps, five smoothers, two quantizers, six rate-gated
  writes, and the throttled debug callback.
- **The RNBO helpers** `lerp`, `inverseLerp`, `mapRange`, `mirroredAngle01`
  (`rnbo_mapping.dfy`) and `listNumberParamDescriptors`, `deriveSliderStep`
  (`rnbo_params.dfy`).
- **The keyed throttle `createKeyedThrottle`** (`throttle.dfy`).

How JavaScript values are represented:

- **A value inspected with `typeof` / `Number.isFinite`** is a `JsNumbers.Num`.
  The cases are a non-number, NaN, ±Infinity, or a finite real.
- **A value that is already known to be finite or absent** is an `Option<real>`.
  This covers timestamps, the `null` of an unset filter, and a `null` magnitude.
- **Finite numbers** are Dafny reals.
- **The `Math` functions** (`exp`, `sqrt`, `acos`, `asin`, `sin`, `cos`, `atan2`) are
  passed in as a record `MathFns`. They are constrained only by the few laws in
  `JsNumbers.Lawful`: `exp(0) = 1`, `exp` of a non-positive number is in (0, 1],
  `sqrt` is the non-negative square root, the ranges of `acos`/`asin`/`atan2`, and
  the values of `sin`/`cos`/`asin`/`atan2` at zero.

How the objects are modelled:

- **Each object whose closure variables the source updates** is a class:
  `EmaFilter`, `QuantizedDwell`, `MotionControls`, `MappingEngine`,
  `MotionToRnboBridge` and `KeyedThrottle`.
- **Each method of such a class** is proved against a pure specification function
  on a state datatype. For example, `MotionToRnboBridge.Tick` ensures
  `State() == TickSpec(cfg, rnbo, hasDebug, old(State()), t, m)`.
- **The properties the pipeline promises** are lemmas about those functions.

Two pairs of source files are duplicated, and each pair is modelled once:

- `lib/bridge/filters.js` and `lib/motionMapper/filters.js` have the same `clamp`
  and `EmaFilter`. Both are modelled once, in module `Filters`.
- The two `safeQuat` copies (in `lib/motionMapper/controls.js` and
  `lib/bridge/motionToRnbo.js`) are modelled once, as `Controls.SafeQuat`.

In these cases the code behaves in ways that are easy to misread, and the model
follows the code:

- **The rate gate lets through a call whose timestamp is undefined.** `tMs - last`
  is then NaN, and `NaN < interval` is false. The gate records the undefined
  timestamp, and a key whose record is undefined behaves like a missing key.
- **The keyed throttle treats a missing key as time 0, not as −Infinity.** So a
  first `shouldEmit` passes only once `now ≥ minIntervalMs` (`Throttle.Emit`).
- **The mapping engine consumes a key's rate slot before it looks at the source.**
  A route whose source is set but not a known signal therefore writes nothing, yet
  spends its slot (`MotionMapper.ApplyConsumesSlot`).
- **The bridge's `vecMag` reads only `x`/`y`/`z`.** The motion mapper's `vecMag`
  also falls back to `alphaRadPerSec`/`betaRadPerSec`/`gammaRadPerSec`. Both are
  modelled as written.
- **`quaternionFromDeviceOrientationDegrees` checks only `typeof`.** NaN and
  infinite angles pass that check and yield a non-finite quaternion, which the
  model keeps as a separate case, `NonFinite`.

## Model

| member | source | states |
|---|---|---|
| `JsNumbers.FiniteValue` | lib/bridge/motionToRnbo.js:38 | `Number.isFinite`: a value is present exactly for a finite number, and it is that number |
| `JsNumbers.Div` | lib/sensors/math/quaternion.js:28 | a quotient is defined exactly when the divisor is non-zero, and then quotient × divisor = dividend |
| `JsNumbers.Round` | lib/bridge/filters.js:56 | `Math.round` yields the integer r with r − ½ ≤ x < r + ½ (halves round up) |
| `JsNumbers.Trunc` | lib/bridge/motionToRnbo.js:39 | truncation toward zero: the integer whose distance to x is below 1 on the side of zero |
| `JsNumbers.Rem360` | lib/bridge/motionToRnbo.js:39 | the JavaScript `%` by 360: magnitude below 360, sign of the dividend, and a − r is a whole multiple of 360 |
| `JsNumbers.Wrap360` | lib/bridge/motionToRnbo.js:39 | `((d % 360) + 360) % 360` lies in [0, 360) and equals the floored remainder d − 360·⌊d/360⌋ |
| `JsNumbers.WrapIsFloorMod` | lib/rnbo/mapping.js:23 | the two truncating remainders compose to the floored remainder |
| `JsNumbers.Wrap360Unique` | lib/rnbo/mapping.js:23 | the wrapped angle is the only value in [0, 360) that differs from d by a multiple of 360 |
| `JsNumbers.Wrap360Shift` | lib/rnbo/mapping.js:23 | wrapping has period 360 |
| `JsNumbers.Wrap360Negate` | lib/rnbo/mapping.js:23 | wrapping −d gives 360 minus the wrap of d, and 0 stays 0 |
| `JsNumbers.SquareFacts` | lib/sensors/math/quaternion.js:21 | a square is non-negative and is positive for a non-zero number |
| `Quaternion.DegToRad` | lib/sensors/math/quaternion.js:1-3 | the radian value r satisfies r·180 = deg·π, and 0° is 0 rad |
| `Quaternion.Multiply` | lib/sensors/math/quaternion.js:5-14 | the Hamilton product, one expression per component. Its partner lemmas pin it down: `MultiplyIdentity` (the identity is a two-sided unit), `MultiplyScalesLeft`/`MultiplyScalesRight` (it is linear in a scalar factor on either side), `ProductWithConjugate` (q·q* = q*·q = ‖q‖²) and `InverseIsTwoSided` |
| `Quaternion.MultiplyIdentity` | lib/sensors/math/quaternion.js:5-14 | the Hamilton product has the identity (0, 0, 0, 1) as a two-sided unit |
| `Quaternion.Conjugate` | lib/sensors/math/quaternion.js:16-18 | the conjugate keeps w, negates the vector part, and keeps the squared norm |
| `Quaternion.ConjugateInvolutive` | lib/sensors/math/quaternion.js:16-18 | conjugating twice gives the original quaternion |
| `Quaternion.NormSquared` | lib/sensors/math/quaternion.js:20-22 | the squared norm is never negative |
| `Quaternion.NormSquaredZero` | lib/sensors/math/quaternion.js:20-22 | the squared norm is 0 exactly for the zero quaternion |
| `Quaternion.ProductWithConjugate` | lib/sensors/math/quaternion.js:5-22 | q·q* = q*·q = (0, 0, 0, ‖q‖²) |
| `Quaternion.MultiplyScalesRight` | lib/sensors/math/quaternion.js:5-14 | multiplying the right factor by a scalar scales the product by it |
| `Quaternion.MultiplyScalesLeft` | lib/sensors/math/quaternion.js:5-14 | multiplying the left factor by a scalar scales the product by it |
| `Quaternion.Inverse` | lib/sensors/math/quaternion.js:24-29 | the inverse is missing exactly for the zero quaternion |
| `Quaternion.InverseCancels` | lib/sensors/math/quaternion.js:27-28 | conjugate / ‖q‖² is a two-sided inverse whenever ‖q‖² ≠ 0 |
| `Quaternion.InverseIsTwoSided` | lib/sensors/math/quaternion.js:24-29 | every non-zero quaternion has an inverse, and it cancels q on both sides to the identity |
| `Quaternion.InverseOfUnit` | lib/sensors/math/quaternion.js:24-29 | the inverse of a unit quaternion is its conjugate |
| `Quaternion.FromDeviceOrientationDegrees` | lib/sensors/math/quaternion.js:31-50 | the result is rejected exactly when an angle is not of type number, and is a composed quaternion exactly when all three angles are finite |
| `Quaternion.AboutZ` | lib/sensors/math/quaternion.js:45 | qz = (0, 0, sin h, cos h) for the half angle h. `SingleAngleRotations` shows it is the whole device quaternion when only alpha is non-zero; with `ZeroAnglesGiveIdentity` and `ComposesZBeforeY` it fixes the place of qz in the product |
| `Quaternion.AboutX` | lib/sensors/math/quaternion.js:46 | qx = (sin h, 0, 0, cos h). `SingleAngleRotations` shows it is the whole device quaternion when only beta is non-zero |
| `Quaternion.AboutY` | lib/sensors/math/quaternion.js:47 | qy = (0, sin h, 0, cos h). `SingleAngleRotations` shows it is the whole device quaternion when only gamma is non-zero, and `ComposesZBeforeY` that it is applied after qz |
| `Quaternion.ZeroAnglesGiveIdentity` | lib/sensors/math/quaternion.js:31-50 | zero angles give the identity quaternion |
| `Quaternion.SingleAngleRotations` | lib/sensors/math/quaternion.js:45-49 | with two angles at zero, the result is the half-angle rotation about z (alpha), x (beta) or y (gamma) |
| `Quaternion.ComposesZBeforeY` | lib/sensors/math/quaternion.js:49 | the composition order is qz·qx·qy; the order matters, because the swapped product differs in its x component |
| `Filters.Clamp` | lib/bridge/filters.js:1-4 | a non-finite input gives min; a finite input lands in [min, max] and is kept when already inside; with max < min the result is max |
| `Filters.OfOption` | lib/bridge/filters.js:20 | an unset value (`null`) becomes a non-finite number, a set value stays itself |
| `Filters.TauFrom` | lib/bridge/filters.js:8 | `Math.max(0.0001, Number(tau) \|\| 0.15)`: a tau that is not a number, NaN or 0 defaults to 0.15 s; a tau of at least 0.0001 s is kept; any other non-zero finite tau (negative ones included) becomes 0.0001 s; +Infinity gives a filter that never moves |
| `Filters.Alpha` | lib/bridge/filters.js:29 | the weight `1 - Math.exp(-dt / tauSeconds)` (0 for the infinite tau). `AlphaRange` states that it lies in [0, 1) for dt ≥ 0 and is 0 when no time has passed |
| `Filters.AlphaRange` | lib/bridge/filters.js:28-29 | the blend factor 1 − exp(−dt/tau) lies in [0, 1), and is 0 when no time has passed |
| `Filters.EmaUpdate` | lib/bridge/filters.js:18-32 | a non-finite input leaves the state unchanged; the first sample, or one without usable timestamps, seeds the value exactly; otherwise the new value lies between the old value and the input, and stays put when time did not advance |
| `Filters.EmaStep` | lib/bridge/filters.js:26-30 | one smoothing step lands between the old value and the input, and does not move when t1 ≤ t0 |
| `Filters.StepBetween` | lib/bridge/filters.js:30 | `_y + alpha * (x - _y)` with alpha in [0, 1] lies between the old value and the input, and a zero weight leaves the value unchanged. `EmaStep`'s bounds rest on it |
| `Filters.EmaRun` | lib/bridge/filters.js:18-32 | a filter fed a sequence of (x, tMs) updates in order. `EmaRunStaysInRange` states that the value never leaves the range of the inputs and the starting value |
| `Filters.EmaRunStaysInRange` | lib/bridge/filters.js:18-32 | a run of updates whose finite inputs lie in [lo, hi], started in [lo, hi], stays in [lo, hi] |
| `Filters.EmaFilter.constructor` | lib/bridge/filters.js:7-11 | the filter starts empty, with tau converted as TauFrom states |
| `Filters.EmaFilter.Reset` | lib/bridge/filters.js:13-16 | the filter's value and timestamp become the given ones |
| `Filters.EmaFilter.Update` | lib/bridge/filters.js:18-32 | the new state is EmaUpdate of the old one, and the returned value is the stored value |
| `Filters.EmaFilter.Value` | lib/bridge/filters.js:34-36 | the value read is the stored value |
| `Filters.Quantize` | lib/bridge/filters.js:56 | the target is rounded and clamped into [min, max]: a non-finite target gives min, and an integer target inside the range is kept |
| `Filters.RoundInRange` | lib/bridge/filters.js:56 | rounding keeps a value inside an integer range, and keeps integers |
| `Filters.DwellUpdate` | lib/bridge/filters.js:55-81 | the output is always set; the first target is adopted at once; a target equal to the current output clears the pending candidate; a new candidate restarts the pending timer; the candidate already pending, seen again, is committed once dwellMs has passed since its first sighting and otherwise leaves the whole state (pending and its start time) as it was |
| `Filters.DwellElapsed` | lib/bridge/filters.js:74 | the commit test: a pending start time exists, tMs exists, and tMs − pendingSinceMs ≥ dwellMs. `DwellSwitchesOnlyAfterHold` states that the output switches only when this holds (or when it was unset) |
| `Filters.DwellSwitchesOnlyAfterHold` | lib/bridge/filters.js:55-81 | the output changes iff it was unset, or the same candidate (different from the output) has been pending for at least dwellMs; a switch clears the pending state |
| `Filters.DwellKeepsRange` | lib/bridge/filters.js:55-81 | the current and pending values stay inside [min, max] |
| `Filters.DwellSwitchesAfterHeldTarget` | lib/bridge/filters.js:68-78 | a target held over two updates dwellMs apart is first only pending, and is then committed |
| `Filters.DwellHoldMeasuredFromFirstSighting` | lib/bridge/filters.js:68-80 | the hold is timed from the first sighting: a target seen at t0, again before t0 + dwellMs (output and start time unchanged), and again at or after t0 + dwellMs is committed on the third update, as with dwellMs 100 and updates at 0, 50 and 150 ms |
| `Filters.QuantizedDwell.constructor` | lib/bridge/filters.js:40-47 | the quantizer starts with no output and no candidate, with the given range and dwell |
| `Filters.QuantizedDwell.Reset` | lib/bridge/filters.js:49-53 | the output becomes the given value, and the candidate is cleared |
| `Filters.QuantizedDwell.Update` | lib/bridge/filters.js:55-81 | the new state is DwellUpdate of the old one, and the returned integer is the new output |
| `Filters.QuantizedDwell.Value` | lib/bridge/filters.js:83-85 | the value read is the current output |
| `RateGate.MinIntervalMs` | lib/motionMapper/mappingEngine.js:24 | the interval 1000 / max(1, hz) lies in (0, 1000], and is 1000 ms for rates up to 1 Hz |
| `RateGate.MinIntervalIsPeriod` | lib/motionMapper/mappingEngine.js:24 | for rates of at least 1 Hz, the interval is the period: interval × hz = 1000 |
| `RateGate.Admits` | lib/motionMapper/mappingEngine.js:24-26 | the gate's test `!(tMs - (last ?? -Infinity) < minIntervalMs)`: an unknown time, a missing key, an unrecorded time, or at least one interval since the recorded time. `CanSetNow`'s contract makes it the exact verdict of the gate, and `GateSpacesWrites` shows two admitted writes of one key are an interval apart |
| `RateGate.CanSetNow` | lib/motionMapper/mappingEngine.js:23-29 | a write is admitted exactly when the key is new or unrecorded, the time is unknown, or at least the interval has passed; an admitted write records the time under that key only, and a refused one leaves the record alone |
| `RateGate.GateKeysIndependent` | lib/bridge/motionToRnbo.js:115-121 | gating one key never changes another key's record |
| `RateGate.GateSpacesWrites` | lib/bridge/motionToRnbo.js:115-121 | two admitted writes of one key at finite times are at least the interval apart |
| `Sink.Deliver` | lib/motionMapper/mappingEngine.js:58 | an optional-chained call reaches the sink exactly when the sink exists and has that method, and is otherwise dropped |
| `Controls.ToNumber` | lib/motionMapper/controls.js:6 | `Number(v)` always yields a number, and keeps a number unchanged |
| `Controls.SafeQuat` | lib/motionMapper/controls.js:4-9 | a quaternion is accepted exactly when it is an array of four finite numbers, and keeps its components |
| `Controls.EnsureShortest` | lib/motionMapper/controls.js:11-14 | the result is q or −q, it has w ≥ 0, and q is kept when its w is already ≥ 0 |
| `Controls.Negate` | lib/motionMapper/controls.js:13 | −q, component by component. `EnsureShortest` returns q or `Negate(q)`, and `RotationVectorSignInvariant` shows both give one rotation vector when w ≠ 0 (at w = 0 both signs are kept, and the vectors are opposite) |
| `Controls.ToRotationVector` | lib/motionMapper/controls.js:16-32 | the angle lies in [0, π]; a zero angle gives the zero vector; sin(angle/2) below 1e-8, after the sign choice, gives the zero vector; the identity gives no rotation |
| `Controls.ShortestRotationVector` | lib/motionMapper/controls.js:17-31 | the same bounds hold after the sign choice, and sin(angle/2) below 1e-8 gives the zero vector |
| `Controls.SinHalfAngle` | lib/motionMapper/controls.js:19-21 | `sqrt(max(0, 1 − clampedW²))`, sin(angle/2), is never negative |
| `Controls.RotationVectorSignInvariant` | lib/motionMapper/controls.js:11-17 | q and −q give the same rotation vector when w ≠ 0; at w = 0 `ensureShortestQuat` keeps both signs, and the vectors are opposite |
| `Controls.Length3` | lib/motionMapper/controls.js:43 | the result is the Euclidean length: non-negative, and its square is the sum of the squares |
| `Controls.HasXyz` | lib/motionMapper/controls.js:38 | the branch test: at least one of x, y, z is of type number. `VecMag`'s contract splits on it into the x/y/z and the alpha/beta/gamma magnitudes |
| `Controls.VecMag` | lib/motionMapper/controls.js:34-52 | no reading gives no magnitude; with any numeric x/y/z, the magnitude exists iff x, y, z are finite and is their length; otherwise the same holds for alpha/beta/gamma |
| `Controls.InitialState` | lib/motionMapper/controls.js:60-78 | no baseline, no rotation vector, all values 0 (and so in range) |
| `Controls.RecalibrateSpec` | lib/motionMapper/controls.js:80-91 | the baseline becomes the last raw quaternion (or unset), the five filters are emptied, and everything else is kept |
| `Controls.Scale01` | lib/motionMapper/controls.js:120-121 | the scaled magnitude lies in [0, 1], and a missing magnitude gives 0 |
| `Controls.ArmBaseline` | lib/motionMapper/controls.js:99-100 | after a valid quaternion a baseline is always set |
| `Controls.ApplyRotation` | lib/motionMapper/controls.js:104-113 | the rotation vector is stored, and each component divided by π is clamped to [−1, 1], smoothed, and clamped again. `UpdateKeepsRange` shows that roll, pitch and yaw stay in [−1, 1], and `RecalibrateThenSameQuaternionIsLevel` that a zero vector gives 0 on all three |
| `Controls.OrientSpec` | lib/motionMapper/controls.js:97-115 | the orientation part of update for a valid quaternion: arm the baseline, then rotate relative to its inverse when it has one. Its properties: `FirstQuaternionBecomesBaseline`, `BaselineIsKept`, `OrientWithZeroBaseline`, `ZeroBaselineFreezesOrientation`, and `RecalibrateThenSameQuaternionIsLevel`; `MotionControls.UpdateOrientation` is proved to compute it |
| `Controls.StoreReadings` | lib/motionMapper/controls.js:94-95 | a present reading replaces the stored one, and an absent one keeps it. `MagnitudesFedFromStoredReadings` states this for a whole update |
| `Controls.MagnitudeSpec` | lib/motionMapper/controls.js:117-124 | both magnitudes, scaled to [0, 1] (0 when missing), are fed to the lin and rot filters on every update, and the clamped outputs stored. Its properties: `UpdateKeepsRange` (lin and rot always in [0, 1]) and `MagnitudesFedFromStoredReadings`; `MotionControls.UpdateMagnitudes` is proved to compute it |
| `Controls.UpdateSpec` | lib/motionMapper/controls.js:93-132 | update on the state: store the readings, run the orientation part for a valid quaternion, then the magnitudes. It is characterised by `UpdateKeepsRange`, `FirstQuaternionBecomesBaseline`, `BaselineIsKept`, `InvalidQuaternionKeepsOrientation`, `ZeroBaselineFreezesOrientation`, `RecalibrateThenSameQuaternionIsLevel` and `MagnitudesFedFromStoredReadings`; `MotionControls.Update` is proved to compute it |
| `Controls.SnapshotOf` | lib/motionMapper/controls.js:137-141 | the snapshot: whether a baseline is set, the last rotation vector, and a copy of the values. `MotionControls.GetSnapshot` returns it |
| `Controls.ResultOf` | lib/motionMapper/controls.js:126-131 | update's return value: the snapshot and both raw magnitudes. `MotionControls.Update` returns it from the new state |
| `Controls.UpdateKeepsRange` | lib/motionMapper/controls.js:93-132 | lin and rot always end in [0, 1]; values in range stay in range (roll/pitch/yaw in [−1, 1]) |
| `Controls.FirstQuaternionBecomesBaseline` | lib/motionMapper/controls.js:97-100 | without a baseline, the first valid quaternion becomes both the baseline and the last raw quaternion |
| `Controls.BaselineIsKept` | lib/motionMapper/controls.js:100 | an existing baseline is never replaced by update |
| `Controls.InvalidQuaternionKeepsOrientation` | lib/motionMapper/controls.js:97-115 | an invalid quaternion leaves the baseline, the rotation vector, roll/pitch/yaw and their filters unchanged |
| `Controls.ZeroBaselineFreezesOrientation` | lib/motionMapper/controls.js:101-102 | with a zero baseline (no inverse) the orientation outputs freeze, while the raw quaternion is still recorded |
| `Controls.OrientWithZeroBaseline` | lib/motionMapper/controls.js:97-115 | with a zero baseline the orientation step only records the raw quaternion |
| `Controls.RecalibrateThenSameQuaternionIsLevel` | lib/motionMapper/controls.js:88-113 | recalibrating and then feeding the same quaternion gives a zero rotation vector and roll = pitch = yaw = 0 |
| `Controls.MagnitudesFedFromStoredReadings` | lib/motionMapper/controls.js:94-124 | a present reading replaces the stored one; with no readings ever, the lin and rot filters are fed 0 |
| `Controls.MotionControls.constructor` | lib/motionMapper/controls.js:54-78 | five fresh filters, taus converted, the initial state |
| `Controls.MotionControls.Recalibrate` | lib/motionMapper/controls.js:88-91 | the new state is RecalibrateSpec of the old one |
| `Controls.MotionControls.Update` | lib/motionMapper/controls.js:93-132 | the new state is UpdateSpec of the old one, and the result is the snapshot with both magnitudes |
| `Controls.MotionControls.UpdateOrientation` | lib/motionMapper/controls.js:97-115 | the orientation part of update, as OrientSpec |
| `Controls.MotionControls.UpdateMagnitudes` | lib/motionMapper/controls.js:117-124 | the magnitude part of update, as MagnitudeSpec, returning both magnitudes |
| `Controls.MotionControls.GetSnapshot` | lib/motionMapper/controls.js:137-141 | the snapshot holds the baseline flag, the rotation vector and the values |
| `MotionMapper.ControlSourcesAreTheEmittingSources` | lib/motionMapper/mappingEngine.js:3-10 | the listed control sources other than "none" are exactly those apply emits for |
| `MotionMapper.IsSignedSource` | lib/motionMapper/mappingEngine.js:55 | a roll, pitch or yaw source, read as a signed value. `ControlSourcesAreTheEmittingSources` relates it to the listed sources |
| `MotionMapper.IsUnsignedSource` | lib/motionMapper/mappingEngine.js:59 | a lin or rot source, read as an unsigned value. `ControlSourcesAreTheEmittingSources` relates it to the listed sources |
| `MotionMapper.ControlOf` | lib/motionMapper/mappingEngine.js:56-60 | `controls[source]` for a signal source. `EntryCall` states that the value it reads is sent normalized for the route's own id |
| `MotionMapper.NumberOrZero` | lib/motionMapper/mappingEngine.js:13 | a non-number or NaN becomes 0, and any other number is kept |
| `MotionMapper.ToNormalizedSigned` | lib/motionMapper/mappingEngine.js:12-16 | the result is in [0, 1]; a value in [−1, 1] maps to ½ + ½v; a missing or NaN value maps to ½ |
| `MotionMapper.ToNormalizedUnsigned` | lib/motionMapper/mappingEngine.js:18-21 | the result is in [0, 1]; a value in [0, 1] is kept; a missing or NaN value maps to 0 (1 when inverted) |
| `MotionMapper.InvertFlips` | lib/motionMapper/mappingEngine.js:12-21 | inverting reflects either normalisation about ½, and −1, 0, 1 map to 0, ½, 1 |
| `MotionMapper.SourceOf` | lib/motionMapper/mappingEngine.js:49 | `spec?.source \|\| "none"` is never empty, and keeps a non-empty source |
| `MotionMapper.Gated` | lib/motionMapper/mappingEngine.js:50-51 | a route whose source is not "none" reaches the rate gate. `ApplyProperties` shows that keys with no such route keep their recorded times, and `ApplyConsumesSlot` that such a route, when admitted, always records tMs |
| `MotionMapper.InvertOf` | lib/motionMapper/mappingEngine.js:53 | `Boolean(spec?.invert)`: a missing spec does not invert. `InvertFlips` states what inverting does to the value |
| `MotionMapper.DistinctKeys` | lib/motionMapper/mappingEngine.js:48 | the entries of an object have distinct keys; it is the invariant of the `Mapping` type, and `ReferenceCallsDistinct` turns it into at most one write per id |
| `MotionMapper.EntryCall` | lib/motionMapper/mappingEngine.js:53-63 | a route produces a call exactly for a signal source, and that call is a normalized write of its own parameter id in [0, 1] |
| `MotionMapper.EntryCalls` | lib/motionMapper/mappingEngine.js:48-64 | one route sends at most one call: only when admitted, only normalized, for its own id, and nothing when the sink lacks setParamNormalized |
| `MotionMapper.EntryStep` | lib/motionMapper/mappingEngine.js:49-63 | one loop iteration: skip a "none" route, else gate the key, and if admitted record tMs and send the route's call through the optional chain. `EntryStepFromStart` relates it to the reference, entry by entry |
| `MotionMapper.ApplyEntries` | lib/motionMapper/mappingEngine.js:48-64 | the loop over `Object.entries(mapping)` in order. `ApplyMatchesReference` proves it equal to the independent reference definition (`ReferenceRate`, `ReferenceCalls`) |
| `MotionMapper.ApplySpec` | lib/motionMapper/mappingEngine.js:43-65 | apply on the state: nothing without a sink or controls, otherwise the loop. `ApplyProperties` and `ApplyConsumesSlot` state its properties, and `MappingEngine.Apply` is proved to compute it |
| `MotionMapper.RecordedAdd` | lib/motionMapper/mappingEngine.js:27 | recording one more written key is one map update |
| `MotionMapper.ApplyMatchesReference` | lib/motionMapper/mappingEngine.js:48-64 | for distinct keys, the loop over entries equals a reference defined entry by entry: the recorded times are those of the admitted, non-"none" keys, and the calls are each admitted route's call in table order |
| `MotionMapper.ReferenceCallsWritten` | lib/motionMapper/mappingEngine.js:48-64 | every call sent is a normalized value in [0, 1] for a key that was admitted and routed, and nothing is sent to a sink without setParamNormalized |
| `MotionMapper.ReferenceCallsDistinct` | lib/motionMapper/mappingEngine.js:48 | a single apply writes each parameter id at most once |
| `MotionMapper.ApplyProperties` | lib/motionMapper/mappingEngine.js:43-65 | no sink or no controls leaves the state alone; apply only appends distinct, normalized, admitted writes; keys without an active route keep their times; the app's RNBO controller (no setParamNormalized) never receives a call |
| `MotionMapper.ApplyConsumesSlot` | lib/motionMapper/mappingEngine.js:50-51 | an admitted non-"none" route records tMs under its key even when its source is not a known signal |
| `MotionMapper.MappingEngine.constructor` | lib/motionMapper/mappingEngine.js:31-37 | the table is the initial mapping or empty, and nothing has been written |
| `MotionMapper.MappingEngine.SetMapping` | lib/motionMapper/mappingEngine.js:39-41 | the table is replaced (null gives the empty table), and the rate records and the log are kept |
| `MotionMapper.MappingEngine.Apply` | lib/motionMapper/mappingEngine.js:43-65 | the records and the log become ApplySpec of the old ones, and the table is not changed |
| `RnboMapping.Lerp` | lib/rnbo/mapping.js:6-8 | t = 0 gives a, t = 1 gives b, and t in [0, 1] stays between a and b |
| `RnboMapping.LerpBounds` | lib/rnbo/mapping.js:6-8 | the linear blend for t in [0, 1] stays between its endpoints |
| `RnboMapping.InverseLerp` | lib/rnbo/mapping.js:10-13 | equal endpoints give 0; otherwise lerp of the result gives v back |
| `RnboMapping.InverseLerpOfLerp` | lib/rnbo/mapping.js:6-13 | inverseLerp undoes lerp for distinct endpoints |
| `RnboMapping.MapRange` | lib/rnbo/mapping.js:15-18 | the result always lies between outMin and outMax; the input endpoints map to the output endpoints; a degenerate input range gives outMin |
| `RnboMapping.MapRangeInside` | lib/rnbo/mapping.js:15-18 | inside the input range, no clamping happens: the result is lerp of inverseLerp |
| `RnboMapping.MirroredAngle01` | lib/rnbo/mapping.js:22-26 | the ramp lies in [0, 1], with 0° at 0 and 180° at 1 |
| `RnboMapping.MirroredAngle01OrNull` | lib/rnbo/mapping.js:22-26 | `mirroredAngle01(null)` is 0, and a number gives the ramp |
| `RnboMapping.MirroredAngleSymmetries` | lib/rnbo/mapping.js:20-26 | the ramp has period 360 and is mirrored: d, −d and 360 − d give the same value |
| `RnboParams.FilterListed` | lib/rnbo/params.js:3 | the kept descriptors are exactly the listed number parameters of the input, and none is added |
| `RnboParams.FilterAppend` | lib/rnbo/params.js:3 | filtering distributes over concatenation, so order is kept |
| `RnboParams.FilterIdempotent` | lib/rnbo/params.js:3 | filtering twice is filtering once |
| `RnboParams.ListNumberParamDescriptors` | lib/rnbo/params.js:1-4 | a missing patcher, desc or parameters list gives [], and otherwise the filtered list |
| `RnboParams.DeriveSliderStep` | lib/rnbo/params.js:6-14 | n > 1 steps divide the range into n − 1 equal steps; otherwise the step is 0.001, 1, 0.01, 0.1 or 1 by range and integrality, as the branches say |
| `Throttle.Previous` | lib/sensors/throttle.js:6 | a missing key reads as 0 |
| `Throttle.Emit` | lib/sensors/throttle.js:4-10 | an emit passes exactly when now − previous ≥ the interval (for a new key: now ≥ the interval); a pass records now, and a refusal changes nothing |
| `Throttle.EmitKeysIndependent` | lib/sensors/throttle.js:6-8 | emitting one key never changes another key's record |
| `Throttle.KeyedThrottle.constructor` | lib/sensors/throttle.js:1-2 | the throttle starts with no records |
| `Throttle.KeyedThrottle.ShouldEmit` | lib/sensors/throttle.js:4-10 | the answer and the new records are those of Emit, with the clock reading passed in |
| `Bridge.RadToDeg` | lib/bridge/motionToRnbo.js:29-33 | radians in (−π, π] and [−π/2, π/2] become degrees in (−180, 180] and [−90, 90], and 0 stays 0; the result satisfies d·π = r·180 for the `Math.PI` literal |
| `Bridge.QuatToEulerDegXYZ` | lib/bridge/motionToRnbo.js:12-35 | roll and yaw lie in (−180, 180], and pitch lies in [−90, 90] |
| `Bridge.EulerOfIdentity` | lib/bridge/motionToRnbo.js:12-35 | the identity quaternion has zero Euler angles |
| `Bridge.To360` | lib/bridge/motionToRnbo.js:37-41 | an angle is produced exactly for a finite input, in [0, 360), as its floored remainder; 0 gives 0 |
| `Bridge.Angle01` | lib/bridge/motionToRnbo.js:141-143 | the mirrored ramp of an Euler angle lies in [0, 1], and 0° gives 0 |
| `Bridge.BridgeVecMag` | lib/bridge/motionToRnbo.js:43-50 | a magnitude exists exactly for a reading with finite x, y, z; it is non-negative and is their Euclidean length |
| `Bridge.Unit` | lib/bridge/motionToRnbo.js:153-154 | a scaled value exists exactly when the magnitude does, lies in [0, 1], and is mag/max when that is already in range |
| `Bridge.DefaultConfigFromDefaults` | lib/bridge/motionToRnbo.js:57-67 | the default configuration (25 Hz, 8 Hz, 15 m/s², 6 rad/s, taus 0.18 s and 0.14 s) is what the constructor builds from the default options, and it is valid |
| `Bridge.InitialState` | lib/bridge/motionToRnbo.js:70-88 | the bridge starts with the given enabled flag, no baseline, no controls, no records, no calls and no events |
| `Bridge.TickEuler` | lib/bridge/motionToRnbo.js:132-145 | Euler angles exist exactly when the quaternion is valid and the armed baseline is invertible |
| `Bridge.ArmedBaseline` | lib/bridge/motionToRnbo.js:135 | the baseline after a valid quaternion: the existing one, or the quaternion itself. `BaselineArming` states this for a whole tick |
| `Bridge.OrientStep` | lib/bridge/motionToRnbo.js:132-145 | the orientation fields after a tick: an invalid quaternion changes nothing; a valid one is recorded, arms the baseline, and updates lastEulerDeg when Euler angles exist. `BaselineArming` and `RecalibrateThenSameQuaternionIsCentered` state its properties, and `MotionToRnboBridge.TickOrientation` is proved to compute it |
| `Bridge.StoreReadings` | lib/bridge/motionToRnbo.js:147-148 | a present reading replaces the stored one. `TickControls` states what the tick stores |
| `Bridge.X01` | lib/bridge/motionToRnbo.js:141 | the mirrored ramp of the roll angle, or null without Euler angles. `TickControls` states that sx exists exactly when the angles do |
| `Bridge.Y01` | lib/bridge/motionToRnbo.js:142 | the mirrored ramp of the pitch angle, or null. `TickControls` states that sy exists exactly when the angles do |
| `Bridge.Z01` | lib/bridge/motionToRnbo.js:143 | the mirrored ramp of the yaw angle, or null. `TickControls` states that sz exists exactly when the angles do |
| `Bridge.Smooth` | lib/bridge/motionToRnbo.js:156-160 | a filter is updated only when its input is not null. `MotionToRnboBridge.SmoothOne` is proved to compute it, and `TickControls` states the smoothed controls are in [0, 1] |
| `Bridge.SmoothStep` | lib/bridge/motionToRnbo.js:156-160 | the five filters after a tick, fed with the three ramps and the two scaled magnitudes. `MotionToRnboBridge.SmoothAll` is proved to compute it |
| `Bridge.ControlsOf` | lib/bridge/motionToRnbo.js:156-162 | lastControls: each control is the clamped filter value, or null when its input is. `TickControls` states that they are in [0, 1] and when each is present |
| `Bridge.Smoothed` | lib/bridge/motionToRnbo.js:156-160 | a smoothed control exists exactly when its input does, and lies in [0, 1] |
| `Bridge.SmoothSpec` | lib/bridge/motionToRnbo.js:156-162 | after smoothing, the controls are always recorded |
| `Bridge.Send` | lib/bridge/motionToRnbo.js:166 | a write goes through the rate gate, and reaches the log only when admitted and the sink has the method |
| `Bridge.WriteY` | lib/bridge/motionToRnbo.js:169-174 | the y writes in order: a gated freq write, the seqlength quantizer update, then a gated seqlength write of its output. `WriteYKeepsOk` and `WriteYGated` state its properties, and `MotionToRnboBridge.WriteSeqLength` is proved to compute it |
| `Bridge.WriteZ` | lib/bridge/motionToRnbo.js:177-181 | the offset quantizer update, then a gated offset write of its output. `WriteZKeepsOk` and `WriteZGated` state its properties, and `MotionToRnboBridge.WriteOffset` is proved to compute it |
| `Bridge.WriteFront` | lib/bridge/motionToRnbo.js:164-174 | the metroRate write and the y writes. `WriteFrontKeepsOk`, `WriteFrontGated` and `FirstFrontWritesGoThrough` state its properties |
| `Bridge.WriteStep` | lib/bridge/motionToRnbo.js:164-187 | the writes of a tick, in the source's order: metroRate, freq, seqlength, offset, delay, degrade, each only for a present control. `WriteStepKeepsOk`, `WriteStepGated` and `FirstWritesAllGoThrough` state its properties, and `MotionToRnboBridge.TickWrites` is proved to compute it |
| `Bridge.SeqLenStep` | lib/bridge/motionToRnbo.js:171-172 | after a y control, the seqlength quantizer always has an output |
| `Bridge.OffsetStep` | lib/bridge/motionToRnbo.js:178-179 | after a z control, the offset quantizer always has an output |
| `Bridge.PreWriteSpec` | lib/bridge/motionToRnbo.js:132-162 | before the writes, the controls are recorded |
| `Bridge.DebugDue` | lib/bridge/motionToRnbo.js:189-190 | `tMs - lastDebugAtMs >= 1000 / Math.max(1, debugHz)`, with an unset lastDebugAtMs meaning −Infinity and an undefined tMs never due. `TickDebugThrottle` and `DebugAtMostOncePerInterval` state the throttle it gives |
| `Bridge.ReportOf` | lib/bridge/motionToRnbo.js:192-199 | the payload passed to onDebug: enabled, tMs, whether the baseline is set, the Euler angles, both magnitudes, and lastControls. `TickDebugThrottle` states that exactly one is appended when the throttle fires |
| `Bridge.DebugSpec` | lib/bridge/motionToRnbo.js:189-200 | the end of a tick: with a callback and the interval passed, record tMs and append one report, else nothing. `TickDebugThrottle`, `DebugAtMostOncePerInterval` and `NoCallbackNoEvents` state its properties, and `MotionToRnboBridge.TickDebug` is proved to compute it |
| `Bridge.TickSpec` | lib/bridge/motionToRnbo.js:123-201 | tick on the state: nothing while disabled; otherwise orientation, readings, smoothing, the six writes and the debug throttle, in that order. Its properties: `TickKeepsInv`, `TickControls`, `DisabledTickIsNoOp`, `TickEnabledStays`, `BaselineArming`, `RecalibrateThenSameQuaternionIsCentered`, `TickGated`, `WritesSpacedPerKey`, `TickDebugThrottle` and `DebugAtMostOncePerInterval`; `MotionToRnboBridge.Tick` is proved to compute it |
| `Bridge.Notify` | lib/bridge/motionToRnbo.js:102 | `onDebug?.(event)`: the event is logged only when the callback exists. `NoCallbackNoEvents` states that nothing is logged without one |
| `Bridge.SetEnabledSpec` | lib/bridge/motionToRnbo.js:100-103 | only the enabled flag changes, and with a callback one enable/disable event is appended |
| `Bridge.RecalibrateSpec` | lib/bridge/motionToRnbo.js:105-113 | the baseline becomes the last raw quaternion or unset; the filters and quantizers are emptied; the records, log, flag and controls are kept; with a callback one event is appended |
| `Bridge.SnapshotOf` | lib/bridge/motionToRnbo.js:207-212 | getDebugSnapshot: enabled, whether the baseline is set, lastEulerDeg and lastControls. `MotionToRnboBridge.GetDebugSnapshot` returns it |
| `Bridge.InitialStateIsValid` | lib/bridge/motionToRnbo.js:70-88 | the initial state satisfies the bridge invariant |
| `Bridge.SendKeepsOk` | lib/bridge/motionToRnbo.js:118-119 | a well-formed write keeps the log well-formed and only appends |
| `Bridge.WriteYKeepsOk` | lib/bridge/motionToRnbo.js:169-174 | the freq/seqlength step keeps the quantizers in range and the log well-formed |
| `Bridge.WriteZKeepsOk` | lib/bridge/motionToRnbo.js:177-181 | the offset step keeps the quantizers in range and the log well-formed |
| `Bridge.WriteFrontKeepsOk` | lib/bridge/motionToRnbo.js:164-174 | the metroRate/freq/seqlength writes keep the invariant and only append |
| `Bridge.WriteStepKeepsOk` | lib/bridge/motionToRnbo.js:164-187 | all six writes keep the invariant and only append |
| `Bridge.TickControls` | lib/bridge/motionToRnbo.js:132-162 | an enabled tick records controls in [0, 1]; x, y, z exist exactly when Euler angles do, and lin/rot exactly when the stored reading has a magnitude; present readings replace the stored ones |
| `Bridge.TickKeepsInv` | lib/bridge/motionToRnbo.js:123-201 | every tick keeps the invariant: controls in [0, 1], normalized writes in [0, 1] to metroRate/freq/delay/degrade, integer writes in 0..7 to seqlength and 0..12 to offset, each through a method the sink has; the log only grows |
| `Bridge.RecalibrateAndSetEnabledKeepInv` | lib/bridge/motionToRnbo.js:100-113 | recalibrate and setEnabled keep the invariant |
| `Bridge.DisabledTickIsNoOp` | lib/bridge/motionToRnbo.js:124 | a disabled tick changes nothing |
| `Bridge.TickEnabledStays` | lib/bridge/motionToRnbo.js:123-201 | tick never changes the enabled flag |
| `Bridge.BaselineArming` | lib/bridge/motionToRnbo.js:132-136 | the first valid quaternion arms the baseline; an existing baseline is kept; an invalid quaternion leaves the orientation alone |
| `Bridge.RecalibrateThenSameQuaternionIsCentered` | lib/bridge/motionToRnbo.js:105-162 | recalibrating on the current raw quaternion and ticking it again gives zero Euler angles and x = y = z = 0 |
| `Bridge.TickDebugThrottle` | lib/bridge/motionToRnbo.js:189-200 | a debug event fires exactly when there is a callback, the bridge is enabled, and the debug interval has passed; firing records tMs and appends one event, and otherwise the debug state is unchanged |
| `Bridge.DebugAtMostOncePerInterval` | lib/bridge/motionToRnbo.js:189-190 | two consecutive ticks that both fire are at least 1000 / max(1, debugHz) ms apart |
| `Bridge.NoCallbackNoEvents` | lib/bridge/motionToRnbo.js:102 | without onDebug, no tick, recalibrate or setEnabled produces an event |
| `Bridge.GatedWiden` | lib/bridge/motionToRnbo.js:115-121 | the per-key gating relation can take on one more untouched key |
| `Bridge.SendGated` | lib/bridge/motionToRnbo.js:115-121 | a gated send is covered by the gating relation for its key |
| `Bridge.MaybeSendGated` | lib/bridge/motionToRnbo.js:164-186 | a guarded send, taken or not, is covered for its key |
| `Bridge.WriteYGated` | lib/bridge/motionToRnbo.js:169-174 | the y writes are gated per key |
| `Bridge.WriteZGated` | lib/bridge/motionToRnbo.js:177-181 | the z write is gated per key |
| `Bridge.WriteFrontGated` | lib/bridge/motionToRnbo.js:164-174 | the first three writes are gated per key |
| `Bridge.WriteStepGated` | lib/bridge/motionToRnbo.js:164-187 | every write key's record changes only by an admitted write at tMs, and each logged call was admitted at tMs |
| `Bridge.TickGated` | lib/bridge/motionToRnbo.js:123-201 | a tick's writes are gated per key since the previous state |
| `Bridge.GatedTwiceSpaced` | lib/bridge/motionToRnbo.js:115-121 | two gated writes of one key at finite times are at least the interval apart |
| `Bridge.WritesSpacedPerKey` | lib/bridge/motionToRnbo.js:115-187 | one parameter written in two consecutive ticks at finite times: the ticks are at least 1000 / max(1, updateHz) ms apart |
| `Bridge.FirstWritesAllGoThrough` | lib/bridge/motionToRnbo.js:164-187 | with no records and all controls present, one tick writes metroRate, freq, seqlength, offset, delay and degrade in that order, with their values |
| `Bridge.FirstFrontWritesGoThrough` | lib/bridge/motionToRnbo.js:164-174 | the first three of these writes, in order |
| `Bridge.MotionToRnboBridge.constructor` | lib/bridge/motionToRnbo.js:52-88 | the configuration is stored with converted taus, and the state is initial |
| `Bridge.MotionToRnboBridge.SetEnabled` | lib/bridge/motionToRnbo.js:100-103 | the new state is SetEnabledSpec of the old one |
| `Bridge.MotionToRnboBridge.Recalibrate` | lib/bridge/motionToRnbo.js:105-113 | the new state is RecalibrateSpec of the old one |
| `Bridge.MotionToRnboBridge.SendCall` | lib/bridge/motionToRnbo.js:115-121 | the write state becomes Send of the old one |
| `Bridge.MotionToRnboBridge.Tick` | lib/bridge/motionToRnbo.js:123-201 | the new state is TickSpec of the old one |
| `Bridge.MotionToRnboBridge.TickUpToWrites` | lib/bridge/motionToRnbo.js:132-162 | the orientation, reading and smoothing part of tick, as PreWriteSpec |
| `Bridge.MotionToRnboBridge.SmoothAndRecord` | lib/bridge/motionToRnbo.js:150-162 | the magnitude and smoothing part, as SmoothSpec |
| `Bridge.MotionToRnboBridge.TickOrientation` | lib/bridge/motionToRnbo.js:132-145 | the orientation part, as OrientStep, returning TickEuler |
| `Bridge.MotionToRnboBridge.SmoothAll` | lib/bridge/motionToRnbo.js:156-162 | the five smoothers, as SmoothStep, returning the recorded controls |
| `Bridge.MotionToRnboBridge.SmoothOne` | lib/bridge/motionToRnbo.js:156 | one smoother updates as Smooth, and the result is the clamped value |
| `Bridge.MotionToRnboBridge.TickWrites` | lib/bridge/motionToRnbo.js:164-187 | the writes, as WriteStep |
| `Bridge.MotionToRnboBridge.WriteSeqLength` | lib/bridge/motionToRnbo.js:169-174 | the y writes, as WriteY |
| `Bridge.MotionToRnboBridge.WriteOffset` | lib/bridge/motionToRnbo.js:177-181 | the z write, as WriteZ |
| `Bridge.MotionToRnboBridge.TickDebug` | lib/bridge/motionToRnbo.js:189-200 | the debug step, as DebugSpec |
| `Bridge.MotionToRnboBridge.GetDebugSnapshot` | lib/bridge/motionToRnbo.js:207-212 | the snapshot holds the flag, the baseline flag, the last Euler angles and the controls |

## Left out

- **IEEE-754 arithmetic**: rounding, overflow to Infinity, and signed zero. Finite numbers are reals, so the round trips (such as q·q⁻¹ = identity) are proved exactly, while the JavaScript code meets them only up to rounding.
- **The `Math` functions** are parameters, constrained only by `Lawful`. Their accuracy is not modelled. `Lawful` bounds the ranges of `acos`, `asin` and `atan2` by `JsNumbers.PI`, the 17-digit literal 3.141592653589793. Both the exact π and the double `Math.PI` exceed that literal by about 1e-16. So at the boundary neither the real functions nor JavaScript's (for example `Math.atan2(0, -1)`, which is `Math.PI`) satisfy `Lawful` exactly.
- `Quaternion.Inverse`: it tests `q == Zero` in place of `!n2`. Over the reals the two are the same (`NormSquaredZero`). A NaN squared norm cannot arise from the finite quaternions that `safeQuat` admits.
- `Bridge.QuatToEulerDegXYZ`: only the ranges of the three angles and the identity case are stated. The trigonometric identities that relate them to the rotation are left out, because the `MathFns` laws do not include them.
- `Bridge.RadToDeg`: it multiplies by 180/π with π the 17-digit literal of `Math.PI`. The value and the bounds are stated for that constant, not for the double `Math.PI`.
- `Controls.ToRotationVector`: the `eps = 1e-8` threshold and the zero angle are stated, but it is not stated that the other vectors are the axis scaled by the angle.
- **`Number(...)` coercion of strings, booleans, null and objects** is a single `NonNumber` case, which `Number` maps to NaN (`Controls.ToNumber`). JavaScript maps `null`, `false`, `true` and numeric strings to finite numbers, so the model rejects a quaternion array such as `[null, 0, 0, 1]` that `safeQuat` accepts. The case covers `null`, `false`, `undefined`, objects and non-numeric strings faithfully wherever the value is then passed through `|| 0` or `|| 0.15`; it does not cover `true` or numeric strings, which coerce to non-zero numbers.
- `MotionMapper.NumberOrZero`: a `NonNumber` control value always becomes 0, so `ToNormalizedSigned` gives ½ and `ToNormalizedUnsigned` gives 0 (1 inverted). In JavaScript `Number(true) || 0` is 1 and `Number("0.3") || 0` is 0.3 (lib/motionMapper/mappingEngine.js:13,19), so a control that is `true` or a numeric string is normalised from that number instead.
- `Filters.TauFrom`: a `NonNumber` tau always becomes 0.15 s. In JavaScript `Number(true) || 0.15` is 1 and `Number("0.3") || 0.15` is 0.3 (lib/bridge/filters.js:8), so a tau given as `true` or as a numeric string is used as that number instead.
- `Filters.EmaUpdate`: a timestamp is `Option<real>`, where none stands for `undefined`, so a NaN timestamp is not modelled. In JavaScript an update with a finite x and a NaN `tMs` seeds the filter and stores NaN as `_tMs` (lib/bridge/filters.js:20-22). Because NaN is not `null`, the next update with a finite `tMs` does not re-seed: it computes `dt = Math.max(0, NaN)`, which is NaN (filters.js:26), so `_y` becomes NaN and stays NaN until `reset`. The model instead re-seeds after an absent timestamp, and its values always stay finite. The bridge's `clamp` would pin such a NaN control to 0 (lib/bridge/motionToRnbo.js:156-160). The rate gate, the quantizers and the debug throttle treat a NaN time like an absent one, so there the modelled behaviour is the same.
- **A `null` timestamp** is not modelled: none stands for `undefined`. The filters seed on it as they do on `undefined`, because `Number.isFinite(null)` is false. The two gates differ, because `null - last` is `-last`, not NaN:
  - `RateGate.Admits`: it always passes a none time. In JavaScript a `null` time is refused once the key has a positive recorded time (lib/bridge/motionToRnbo.js:115-120, lib/motionMapper/mappingEngine.js:23-29). A first `null` is admitted and recorded, and later times are then measured from 0.
  - `Bridge.DebugDue`: it is never due for a none time. In JavaScript `null - (-Infinity) >= interval` holds, so the first tick with a `null` time reports to `onDebug` and records `null` (lib/bridge/motionToRnbo.js:189-191).
  - `Filters.DwellElapsed`: it is false for a none time, and so is `null - pendingSinceMs >= dwellMs` unless the start time is at most −dwellMs.
  - No file described here passes `null`. The bridge's `tick` has no caller among them. The motion mapper gets its time from a sensor callback (app/MotionMapperApp.js:153-165), and no file shown here invokes that callback, so where its value comes from is not part of this model.
- **`Boolean(...)` coercion** of `invert` and `enabled` is modelled as an already boolean value.
- **`Object.entries` order** is the order of the mapping table's sequence. Keys are distinct, so the table is an object, not an arbitrary list.
- **`if (!mapping) return;` in apply** cannot be reached: the table is always `initialMapping \|\| {}` or `next \|\| {}`.
- **Config merging in the bridge** (`{...defaults, ...config}`) and the controls' default arguments are not modelled. The constructors take the resulting values. `Bridge.DefaultConfig` records the defaults, and `Bridge.DefaultConfigFromDefaults` ties them to the constructor's conversion.
- **Non-finite rates** (`updateHz`, `debugHz` as NaN or Infinity) are left out. Rates are reals.
- **The debug callback's payload** is an event log of `DebugEvent`s. The note strings and the snapshot objects are not reproduced. `baseline: "set"/"unset"` is a boolean.
- **The clock in `shouldEmit`** (`performance.now()` / `Date.now()`) is a parameter `now`.
- **Optional chaining on the sink** (`rnbo?.setParamNormalized?.(...)`) is modelled by `SinkCaps`. The sink's own effect on the audio patch is outside the model.
- **`fmtNumber`** (lib/rnbo/params.js:16-24) is string formatting of numbers. It returns `String(n)` for a value that is not a number or not finite, and `"0"` for zero. Otherwise it returns `n.toFixed(0)`, `toFixed(1)`, `toFixed(2)` or `toFixed(4)` for |n| ≥ 1000, ≥ 100, ≥ 10 and below 10. It is not modelled, because Dafny has no floating-point formatting.
- **Duplicates**: `QuantizedDwell` exists only in lib/bridge/filters.js. The motion mapper's copy of the filters is the same code as the bridge's, and is modelled once.
- **Outside the model**: sensor strategies, permissions, the sensor controller, the RNBO runtime, patcher loading, storage and the UI. They are I/O and browser plumbing.
