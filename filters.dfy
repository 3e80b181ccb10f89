/**
 * The scalar filters of lib/bridge/filters.js. lib/motionMapper/filters.js holds a
 * copy of its `clamp` and `EmaFilter`, identical line for line; both files are
 * modelled by this one module.
 */
module Filters {
  import opened Wrappers
  import opened JsNumbers

  /**
   * clamp(n, min, max): min for anything that is not a finite number, otherwise
   * Math.min(max, Math.max(min, n)).
   */
  function Clamp(n: Num, min: real, max: real): (r: real)
    ensures !n.Finite? ==> r == min
    ensures n.Finite? && min <= max ==> min <= r <= max
    ensures n.Finite? && min <= n.r <= max ==> r == n.r
    ensures n.Finite? && max < min ==> r == max
  {
    if !n.Finite? then min else Min(max, Max(min, n.r))
  }

  /** A finite value or none, as a JavaScript number: none stands for NaN. */
  function OfOption(v: Option<real>): (n: Num)
    ensures n.Finite? <==> v.Some?
    ensures v.Some? ==> n.r == v.value
  {
    if v.Some? then Finite(v.value) else NaN
  }

  // ---------------------------------------------------------------- EmaFilter

  /** A time constant in seconds, or +Infinity (the filter then never moves). */
  datatype Tau = Seconds(s: real) | Unbounded

  predicate ValidTau(tau: Tau) {
    tau.Seconds? ==> tau.s >= 0.0001
  }

  /**
   * `Math.max(0.0001, Number(tauSeconds) || 0.15)`: a NaN or zero conversion
   * falls back to 0.15, and everything is floored at 0.0001.
   */
  function TauFrom(tauSeconds: Num): (tau: Tau)
    ensures ValidTau(tau)
    ensures tauSeconds.NonNumber? || tauSeconds.NaN? || tauSeconds == Finite(0.0) ==> tau == Seconds(0.15)
    ensures tauSeconds.Finite? && tauSeconds.r >= 0.0001 ==> tau == Seconds(tauSeconds.r)
    ensures tauSeconds.Finite? && tauSeconds.r != 0.0 && tauSeconds.r < 0.0001 ==> tau == Seconds(0.0001)
    ensures tau.Unbounded? <==> tauSeconds.PosInfinity?
  {
    match tauSeconds
    case NonNumber => Seconds(0.15)
    case NaN => Seconds(0.15)
    case PosInfinity => Unbounded
    case NegInfinity => Seconds(0.0001)
    case Finite(t) => if t == 0.0 then Seconds(0.15) else Seconds(Max(0.0001, t))
  }

  /** The fields `_y` and `_tMs`; none is the source's null (or undefined). */
  datatype EmaState = EmaState(y: Option<real>, tMs: Option<real>)

  /** `1 - Math.exp(-dt / tauSeconds)` */
  function Alpha(tau: Tau, dt: real, m: MathFns): real
    requires ValidTau(tau)
  {
    match tau
    case Seconds(s) => 1.0 - m.exp(-dt / s)
    case Unbounded => 1.0 - m.exp(0.0)
  }

  /** The smoothing weight lies in [0, 1), and is 0 when no time has passed. */
  lemma AlphaRange(tau: Tau, dt: real, m: MathFns)
    requires Lawful(m) && ValidTau(tau) && dt >= 0.0
    ensures 0.0 <= Alpha(tau, dt, m) < 1.0
    ensures dt == 0.0 ==> Alpha(tau, dt, m) == 0.0
  {
    if tau.Seconds? {
      var e := -dt / tau.s;
      assert e <= 0.0;
      assert dt == 0.0 ==> e == 0.0;
    }
  }

  /**
   * EmaFilter.update(x, tMs) on the state: a non-finite x changes nothing; a
   * missing stored value or time, or a missing tMs, seeds the filter with x;
   * otherwise the value moves toward x by the weight for the time elapsed, a
   * backwards step counting as no time.
   */
  function EmaUpdate(tau: Tau, s: EmaState, x: Num, tMs: Option<real>, m: MathFns): (r: EmaState)
    requires Lawful(m) && ValidTau(tau)
    ensures !x.Finite? ==> r == s
    ensures x.Finite? && (s.y.None? || s.tMs.None? || tMs.None?) ==> r == EmaState(Some(x.r), tMs)
    ensures x.Finite? && s.y.Some? && s.tMs.Some? && tMs.Some? ==>
      && r.tMs == tMs
      && r.y.Some?
      && Min(s.y.value, x.r) <= r.y.value <= Max(s.y.value, x.r)
    ensures x.Finite? && s.y.Some? && s.tMs.Some? && tMs.Some? && tMs.value <= s.tMs.value ==> r.y == s.y
  {
    if !x.Finite? then s
    else if s.y.None? || s.tMs.None? || tMs.None? then EmaState(Some(x.r), tMs)
    else EmaState(Some(EmaStep(tau, s.y.value, s.tMs.value, x.r, tMs.value, m)), tMs)
  }

  /**
   * One smoothing step from the stored value y (stored at time t0) toward x at
   * time t1: the result lies between y and x, and is y when t1 <= t0.
   */
  function EmaStep(tau: Tau, y: real, t0: real, x: real, t1: real, m: MathFns): (r: real)
    requires Lawful(m) && ValidTau(tau)
    ensures Min(y, x) <= r <= Max(y, x)
    ensures t1 <= t0 ==> r == y
  {
    var dt := Max(0.0, (t1 - t0) / 1000.0);
    var alpha := Alpha(tau, dt, m);
    AlphaRange(tau, dt, m);
    StepBetween(y, x, alpha);
    y + alpha * (x - y)
  }

  /** A convex step from y toward x, with weight in [0, 1], stays between them. */
  lemma StepBetween(y: real, x: real, alpha: real)
    requires 0.0 <= alpha <= 1.0
    ensures Min(y, x) <= y + alpha * (x - y) <= Max(y, x)
    ensures alpha == 0.0 ==> y + alpha * (x - y) == y
  {
    if x >= y {
      MulNonNegative(alpha, x - y);
      MulNonNegative(1.0 - alpha, x - y);
    } else {
      MulNonNegative(alpha, y - x);
      MulNonNegative(1.0 - alpha, y - x);
    }
  }

  lemma MulNonNegative(a: real, b: real)
    requires a >= 0.0 && b >= 0.0
    ensures a * b >= 0.0
  {}

  /** The value a filter reports after a run of updates at the given times. */
  function EmaRun(tau: Tau, s: EmaState, xs: seq<(Num, Option<real>)>, m: MathFns): EmaState
    requires Lawful(m) && ValidTau(tau)
    decreases |xs|
  {
    if |xs| == 0 then s else EmaRun(tau, EmaUpdate(tau, s, xs[0].0, xs[0].1, m), xs[1..], m)
  }

  /**
   * Smoothing never leaves the range of what it has been fed: with the stored value
   * and every finite input in [lo, hi], the value after any run stays in [lo, hi].
   */
  lemma {:induction false} EmaRunStaysInRange(tau: Tau, s: EmaState, xs: seq<(Num, Option<real>)>, m: MathFns, lo: real, hi: real)
    requires Lawful(m) && ValidTau(tau)
    requires s.y.Some? ==> lo <= s.y.value <= hi
    requires forall i :: 0 <= i < |xs| && xs[i].0.Finite? ==> lo <= xs[i].0.r <= hi
    ensures EmaRun(tau, s, xs, m).y.Some? ==> lo <= EmaRun(tau, s, xs, m).y.value <= hi
    decreases |xs|
  {
    if |xs| > 0 {
      var s' := EmaUpdate(tau, s, xs[0].0, xs[0].1, m);
      assert s'.y.Some? ==> lo <= s'.y.value <= hi;
      assert forall i :: 0 <= i < |xs[1..]| && xs[1..][i].0.Finite? ==> lo <= xs[1..][i].0.r <= hi by {
        forall i | 0 <= i < |xs[1..]| && xs[1..][i].0.Finite?
          ensures lo <= xs[1..][i].0.r <= hi
        {
          assert xs[1..][i] == xs[i + 1];
        }
      }
      EmaRunStaysInRange(tau, s', xs[1..], m, lo, hi);
    }
  }

  /** class EmaFilter */
  class EmaFilter {
    const tau: Tau
    var y: Option<real>
    var tMs: Option<real>

    ghost predicate Valid()
      reads this
    {
      ValidTau(tau)
    }

    function State(): EmaState
      reads this
    {
      EmaState(y, tMs)
    }

    /** `value` getter */
    function Value(): (v: Option<real>)
      reads this
      ensures v == State().y
    {
      y
    }

    constructor(tauSeconds: Num)
      ensures Valid()
      ensures tau == TauFrom(tauSeconds)
      ensures State() == EmaState(None, None)
    {
      tau := TauFrom(tauSeconds);
      y := None;
      tMs := None;
    }

    /** reset(value, tMs) */
    method Reset(value: Option<real>, t: Option<real>)
      requires Valid()
      modifies this
      ensures Valid()
      ensures State() == EmaState(value, t)
    {
      y := value;
      tMs := t;
    }

    /** update(x, tMs): returns the new stored value. */
    method Update(x: Num, t: Option<real>, m: MathFns) returns (out: Option<real>)
      requires Valid() && Lawful(m)
      modifies this
      ensures Valid()
      ensures State() == EmaUpdate(tau, old(State()), x, t, m)
      ensures out == y
    {
      if !x.Finite? {
        return y;
      }
      if y.None? || tMs.None? || t.None? {
        y := Some(x.r);
        tMs := t;
        return y;
      }
      var dt := Max(0.0, (t.value - tMs.value) / 1000.0);
      var alpha := Alpha(tau, dt, m);
      var next := y.value + alpha * (x.r - y.value);
      assert next == EmaStep(tau, y.value, tMs.value, x.r, t.value, m);
      tMs := t;
      y := Some(next);
      return y;
    }
  }

  // ----------------------------------------------------------- QuantizedDwell

  /** The fields `_current`, `_pending` and `_pendingSinceMs`. */
  datatype DwellState = DwellState(current: Option<int>, pending: Option<int>, pendingSinceMs: Option<real>)

  /** `Math.round(clamp(targetInt, min, max))` */
  function Quantize(target: Num, min: int, max: int): (v: int)
    ensures min <= max ==> min <= v <= max
    ensures !target.Finite? ==> v == min
    ensures target.Finite? && IsInteger(target.r) && min as real <= target.r <= max as real ==> v as real == target.r
  {
    var c := Clamp(target, min as real, max as real);
    RoundInRange(c, min, max);
    Round(c)
  }

  /** Rounding a real within integer bounds stays within them, and keeps an integer. */
  lemma RoundInRange(c: real, min: int, max: int)
    ensures min as real <= c <= max as real ==> min <= Round(c) <= max
    ensures IsInteger(c) ==> Round(c) as real == c
    ensures c == min as real ==> Round(c) == min
  {
    var k := Round(c);
    assert (k as real) - 0.5 <= c < (k as real) + 0.5;
    if min as real <= c {
      assert (min as real) - 0.5 < (k as real);
    }
    if c <= max as real {
      assert (k as real) <= (max as real) + 0.5;
    }
    if IsInteger(c) {
      var f := c.Floor;
      assert f as real == c;
      assert (c + 0.5).Floor == f;
    }
  }

  /** The hold has lasted: a pending start time exists and at least dwellMs has passed. */
  predicate DwellElapsed(s: DwellState, tMs: Option<real>, dwellMs: real) {
    s.pendingSinceMs.Some? && tMs.Some? && tMs.value - s.pendingSinceMs.value >= dwellMs
  }

  /**
   * QuantizedDwell.update(targetInt, tMs) on the state. The returned integer is
   * the new `current`.
   */
  function DwellUpdate(min: int, max: int, dwellMs: real, s: DwellState, target: Num, tMs: Option<real>): (r: DwellState)
    ensures r.current.Some?
    ensures s.current.None? ==> r == s.(current := Some(Quantize(target, min, max)))
    ensures s.current.Some? && Quantize(target, min, max) == s.current.value ==>
      r == DwellState(s.current, None, None)
    ensures s.current.Some? && Quantize(target, min, max) != s.current.value && s.pending != Some(Quantize(target, min, max)) ==>
      r == DwellState(s.current, Some(Quantize(target, min, max)), tMs)
    ensures s.current.Some? && Quantize(target, min, max) != s.current.value && s.pending == Some(Quantize(target, min, max)) ==>
      r == (if DwellElapsed(s, tMs, dwellMs) then DwellState(s.pending, None, None) else s)
  {
    var v := Quantize(target, min, max);
    if s.current.None? then s.(current := Some(v))
    else if v == s.current.value then DwellState(s.current, None, None)
    else if s.pending != Some(v) then DwellState(s.current, Some(v), tMs)
    else if DwellElapsed(s, tMs, dwellMs) then DwellState(s.pending, None, None)
    else s
  }

  /**
   * The output changes only on the first update or when the value already pending
   * is seen again once the hold has lasted dwellMs; it then becomes that value.
   */
  lemma DwellSwitchesOnlyAfterHold(min: int, max: int, dwellMs: real, s: DwellState, target: Num, tMs: Option<real>)
    ensures var r := DwellUpdate(min, max, dwellMs, s, target, tMs);
      r.current != s.current <==>
        || s.current.None?
        || (s.pending == Some(Quantize(target, min, max)) && s.pending != s.current && DwellElapsed(s, tMs, dwellMs))
    ensures var r := DwellUpdate(min, max, dwellMs, s, target, tMs);
      s.current.Some? && r.current != s.current ==>
        r == DwellState(Some(Quantize(target, min, max)), None, None)
  {}

  /** Within integer bounds min <= max, an output in range stays in range. */
  predicate DwellInRange(min: int, max: int, s: DwellState) {
    && (s.current.Some? ==> min <= s.current.value <= max)
    && (s.pending.Some? ==> min <= s.pending.value <= max)
  }

  lemma DwellKeepsRange(min: int, max: int, dwellMs: real, s: DwellState, target: Num, tMs: Option<real>)
    requires min <= max && DwellInRange(min, max, s)
    ensures DwellInRange(min, max, DwellUpdate(min, max, dwellMs, s, target, tMs))
  {}

  /**
   * Holding a new value: the first update that sees it starts the hold at t0 and
   * keeps the old output; the same value seen again at t1 >= t0 + dwellMs switches.
   */
  lemma DwellSwitchesAfterHeldTarget(min: int, max: int, dwellMs: real, cur: int, target: Num, t0: real, t1: real)
    requires Quantize(target, min, max) != cur
    requires t1 - t0 >= dwellMs
    ensures var s0 := DwellState(Some(cur), None, None);
      var s1 := DwellUpdate(min, max, dwellMs, s0, target, Some(t0));
      var s2 := DwellUpdate(min, max, dwellMs, s1, target, Some(t1));
      s1.current == Some(cur) && s2.current == Some(Quantize(target, min, max))
  {}

  /**
   * The hold is measured from the first sighting of a candidate: seen at t0, again
   * at t1 before dwellMs has passed (the output and the start time stay), and again
   * at t2 once t2 - t0 >= dwellMs, it becomes the output.
   */
  lemma DwellHoldMeasuredFromFirstSighting(min: int, max: int, dwellMs: real, cur: int, target: Num, t0: real, t1: real, t2: real)
    requires Quantize(target, min, max) != cur
    requires t1 - t0 < dwellMs && t2 - t0 >= dwellMs
    ensures var s0 := DwellState(Some(cur), None, None);
      var s1 := DwellUpdate(min, max, dwellMs, s0, target, Some(t0));
      var s2 := DwellUpdate(min, max, dwellMs, s1, target, Some(t1));
      var s3 := DwellUpdate(min, max, dwellMs, s2, target, Some(t2));
      && s1 == DwellState(Some(cur), Some(Quantize(target, min, max)), Some(t0))
      && s2 == s1
      && s3 == DwellState(Some(Quantize(target, min, max)), None, None)
  {}

  /** class QuantizedDwell */
  class QuantizedDwell {
    const min: int
    const max: int
    const dwellMs: real
    var current: Option<int>
    var pending: Option<int>
    var pendingSinceMs: Option<real>

    function State(): DwellState
      reads this
    {
      DwellState(current, pending, pendingSinceMs)
    }

    /** `value` getter */
    function Value(): (v: Option<int>)
      reads this
      ensures v == State().current
    {
      current
    }

    constructor(min: int, max: int, dwellMs: real)
      ensures this.min == min && this.max == max && this.dwellMs == dwellMs
      ensures State() == DwellState(None, None, None)
    {
      this.min := min;
      this.max := max;
      this.dwellMs := dwellMs;
      current := None;
      pending := None;
      pendingSinceMs := None;
    }

    /** reset(value) */
    method Reset(value: Option<int>)
      modifies this
      ensures State() == DwellState(value, None, None)
    {
      current := value;
      pending := None;
      pendingSinceMs := None;
    }

    /** update(targetInt, tMs) */
    method Update(target: Num, tMs: Option<real>) returns (out: int)
      modifies this
      ensures State() == DwellUpdate(min, max, dwellMs, old(State()), target, tMs)
      ensures current == Some(out)
    {
      var v := Round(Clamp(target, min as real, max as real));
      if current.None? {
        current := Some(v);
        return v;
      }
      if v == current.value {
        pending := None;
        pendingSinceMs := None;
        return current.value;
      }
      if pending != Some(v) {
        pending := Some(v);
        pendingSinceMs := tMs;
        return current.value;
      }
      if pendingSinceMs.Some? && tMs.Some? && tMs.value - pendingSinceMs.value >= dwellMs {
        current := pending;
        pending := None;
        pendingSinceMs := None;
      }
      return current.value;
    }
  }
}
