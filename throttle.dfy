/**
 * The keyed throttle of lib/sensors/throttle.js. The clock reading
 * (performance.now() or Date.now()) is passed in as `now`.
 */
module Throttle {

  /** The verdict of one shouldEmit call and the `last` Map afterwards. */
  datatype Emitted = Emitted(ok: bool, last: map<string, real>)

  /** The time a key counts as last emitted at: never emitted is time 0, not -Infinity. */
  function Previous(last: map<string, real>, key: string): (prev: real)
    ensures key !in last ==> prev == 0.0
    ensures key in last ==> prev == last[key]
  {
    if key in last then last[key] else 0.0
  }

  /**
   * shouldEmit(key) at time now: accepted exactly when at least minIntervalMs has
   * passed since the key's previous emit; an accepted emit records now for that key.
   */
  function Emit(last: map<string, real>, key: string, now: real, minIntervalMs: real): (r: Emitted)
    ensures r.ok <==> now - Previous(last, key) >= minIntervalMs
    ensures key !in last ==> (r.ok <==> now >= minIntervalMs)
    ensures r.ok ==> r.last == last[key := now]
    ensures !r.ok ==> r.last == last
  {
    var prev := if key in last then last[key] else 0.0;
    if now - prev < minIntervalMs then Emitted(false, last) else Emitted(true, last[key := now])
  }

  /** Keys are independent: an emit on one key never changes another key's record. */
  lemma EmitKeysIndependent(last: map<string, real>, key: string, other: string, now: real, minIntervalMs: real)
    requires other != key
    ensures var r := Emit(last, key, now, minIntervalMs).last;
      (other in r <==> other in last) && (other in last ==> r[other] == last[other])
  {}

  /** The closure createKeyedThrottle returns, with its `last` Map. */
  class KeyedThrottle {
    const minIntervalMs: real
    var last: map<string, real>

    /** createKeyedThrottle({ minIntervalMs }) */
    constructor(minIntervalMs: real)
      ensures this.minIntervalMs == minIntervalMs && last == map[]
    {
      this.minIntervalMs := minIntervalMs;
      last := map[];
    }

    /** shouldEmit(key), read at clock time now. */
    method ShouldEmit(key: string, now: real) returns (ok: bool)
      modifies this
      ensures Emitted(ok, last) == Emit(old(last), key, now, minIntervalMs)
    {
      var prev := if key in last then last[key] else 0.0;
      if now - prev < minIntervalMs {
        return false;
      }
      last := last[key := now];
      return true;
    }
  }
}
