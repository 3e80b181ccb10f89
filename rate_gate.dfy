/**
 * The per-parameter rate gate `canSetNow` of lib/motionMapper/mappingEngine.js,
 * which lib/bridge/motionToRnbo.js repeats with its own updateHz. A key never
 * written counts as last written at -Infinity; a missing time is JavaScript's
 * undefined, for which both comparisons are false and the write is let through.
 */
module RateGate {
  import opened Wrappers
  import opened JsNumbers

  /** The `lastSetAt` Map: paramId to the tMs of its last accepted write (none for undefined). */
  type RateState = map<string, Option<real>>

  /** `1000 / Math.max(1, updateHz)`: positive, and never more than a second. */
  function MinIntervalMs(updateHz: real): (r: real)
    ensures 0.0 < r <= 1000.0
    ensures updateHz <= 1.0 ==> r == 1000.0
  {
    1000.0 / Max(1.0, updateHz)
  }

  /** From 1 Hz up, the interval is one period of the rate. */
  lemma MinIntervalIsPeriod(updateHz: real)
    requires updateHz >= 1.0
    ensures MinIntervalMs(updateHz) * updateHz == 1000.0
  {}

  /** The write is let through: nothing recorded for the key, or enough time has passed. */
  predicate Admits(last: RateState, key: string, tMs: Option<real>, updateHz: real) {
    || tMs.None?
    || key !in last
    || last[key].None?
    || tMs.value - last[key].value >= MinIntervalMs(updateHz)
  }

  /** The verdict of one gate call and the Map afterwards. */
  datatype Gate = Gate(ok: bool, last: RateState)

  /** canSetNow(lastSetAt, paramId, tMs, updateHz) */
  function CanSetNow(last: RateState, key: string, tMs: Option<real>, updateHz: real): (r: Gate)
    ensures r.ok <==> Admits(last, key, tMs, updateHz)
    ensures key !in last ==> r.ok
    ensures r.ok ==> r.last == last[key := tMs]
    ensures !r.ok ==> r.last == last
  {
    if tMs.Some? && key in last && last[key].Some? && tMs.value - last[key].value < MinIntervalMs(updateHz) then
      Gate(false, last)
    else
      Gate(true, last[key := tMs])
  }

  /** A gate call on one key never changes what another key has recorded. */
  lemma GateKeysIndependent(last: RateState, key: string, other: string, tMs: Option<real>, updateHz: real)
    requires other != key
    ensures var r := CanSetNow(last, key, tMs, updateHz).last;
      (other in r <==> other in last) && (other in last ==> r[other] == last[other])
  {}

  /** Two accepted writes of one key at finite times are at least the minimum interval apart. */
  lemma GateSpacesWrites(last: RateState, key: string, t1: real, t2: real, updateHz: real)
    requires CanSetNow(last, key, Some(t1), updateHz).ok
    requires CanSetNow(CanSetNow(last, key, Some(t1), updateHz).last, key, Some(t2), updateHz).ok
    ensures t2 - t1 >= MinIntervalMs(updateHz)
  {
    var after := CanSetNow(last, key, Some(t1), updateHz).last;
    assert after[key] == Some(t1);
  }
}
