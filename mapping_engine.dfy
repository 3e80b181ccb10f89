/**
 * The mapping engine of lib/motionMapper/mappingEngine.js: a replaceable table
 * from paramId to a route {source, invert}; `apply` normalises the routed control
 * to [0, 1] and writes it with setParamNormalized, each paramId behind its own
 * rate gate.
 */
module MotionMapper {
  import opened Wrappers
  import opened JsNumbers
  import opened Filters
  import opened RateGate
  import opened Sink

  /** The ids of CONTROL_SOURCES, in order (the labels are display text only). */
  const ControlSourceIds: seq<string> := ["none", "roll", "pitch", "yaw", "lin", "rot"]

  /** Sources whose value is signed in [-1, 1]. */
  predicate IsSignedSource(source: string) {
    source == "roll" || source == "pitch" || source == "yaw"
  }

  /** Sources whose value is unsigned in [0, 1]. */
  predicate IsUnsignedSource(source: string) {
    source == "lin" || source == "rot"
  }

  /** Exactly the ids of CONTROL_SOURCES other than "none" are the sources apply writes for. */
  lemma ControlSourcesAreTheEmittingSources(source: string)
    ensures source in ControlSourceIds && source != "none" <==> IsSignedSource(source) || IsUnsignedSource(source)
  {}

  /** `Number(v) || 0`: NaN and values that are not numbers become 0. */
  function NumberOrZero(v: Num): (n: Num)
    ensures n.NonNumber? == false && n.NaN? == false
    ensures v.Finite? || v.PosInfinity? || v.NegInfinity? ==> n == v
  {
    if v.NonNumber? || v.NaN? then Finite(0.0) else v
  }

  /** toNormalizedSigned(vSigned, invert): [-1, 1] onto [0, 1], reversed when inverted. */
  function ToNormalizedSigned(v: Num, invert: bool): (r: real)
    ensures 0.0 <= r <= 1.0
    ensures !invert && v.Finite? && -1.0 <= v.r <= 1.0 ==> r == 0.5 + 0.5 * v.r
    ensures !IsNumber(v) || v.NaN? ==> r == 0.5
  {
    var c := Clamp(NumberOrZero(v), -1.0, 1.0);
    var signed := if invert then -c else c;
    0.5 + 0.5 * signed
  }

  /** toNormalizedUnsigned(v01, invert): clamped to [0, 1], reversed when inverted. */
  function ToNormalizedUnsigned(v: Num, invert: bool): (r: real)
    ensures 0.0 <= r <= 1.0
    ensures !invert && v.Finite? && 0.0 <= v.r <= 1.0 ==> r == v.r
    ensures !IsNumber(v) || v.NaN? ==> r == (if invert then 1.0 else 0.0)
  {
    var c := Clamp(NumberOrZero(v), 0.0, 1.0);
    if invert then 1.0 - c else c
  }

  /** Inverting flips either normalisation about 1/2, and the signed one maps -1, 0, 1 to 0, 1/2, 1. */
  lemma InvertFlips(v: Num)
    ensures ToNormalizedSigned(v, true) == 1.0 - ToNormalizedSigned(v, false)
    ensures ToNormalizedUnsigned(v, true) == 1.0 - ToNormalizedUnsigned(v, false)
    ensures ToNormalizedSigned(Finite(-1.0), false) == 0.0
    ensures ToNormalizedSigned(Finite(0.0), false) == 0.5
    ensures ToNormalizedSigned(Finite(1.0), false) == 1.0
  {}

  /** The `controls` object apply reads: one JavaScript value per source. */
  datatype ControlValues = ControlValues(roll: Num, pitch: Num, yaw: Num, lin: Num, rot: Num)

  /** `controls[source]` for a signal source. */
  function ControlOf(controls: ControlValues, source: string): Num
    requires IsSignedSource(source) || IsUnsignedSource(source)
  {
    if source == "roll" then controls.roll
    else if source == "pitch" then controls.pitch
    else if source == "yaw" then controls.yaw
    else if source == "lin" then controls.lin
    else controls.rot
  }

  /** A route of the table; a missing or empty source counts as "none". */
  datatype RouteSpec = RouteSpec(source: string, invert: bool)

  /** One `[paramId, spec]` of Object.entries(mapping); spec none is null or undefined. */
  type Entry = (string, Option<RouteSpec>)

  predicate DistinctKeys(entries: seq<Entry>) {
    forall i, j :: 0 <= i < j < |entries| ==> entries[i].0 != entries[j].0
  }

  /** A mapping table: an object, so every paramId occurs once. */
  type Mapping = entries: seq<Entry> | DistinctKeys(entries) witness []

  /** `spec?.source || "none"` */
  function SourceOf(spec: Option<RouteSpec>): (s: string)
    ensures s != ""
    ensures spec.Some? && spec.value.source != "" ==> s == spec.value.source
  {
    if spec.None? || spec.value.source == "" then "none" else spec.value.source
  }

  /** The entry reaches the rate gate: its source is not "none". */
  predicate Gated(e: Entry) {
    SourceOf(e.1) != "none"
  }

  /** `Boolean(spec?.invert)` */
  function InvertOf(spec: Option<RouteSpec>): bool {
    spec.Some? && spec.value.invert
  }

  /** The call an admitted entry makes, if its source is a signal; none for an unknown source. */
  function EntryCall(controls: ControlValues, e: Entry): (r: Option<ParamCall>)
    ensures r.Some? ==> r.value.SetParamNormalized? && r.value.paramId == e.0 && 0.0 <= r.value.value <= 1.0
    ensures r.Some? <==> IsSignedSource(SourceOf(e.1)) || IsUnsignedSource(SourceOf(e.1))
  {
    var source := SourceOf(e.1);
    if IsSignedSource(source) then
      Some(SetParamNormalized(e.0, ToNormalizedSigned(ControlOf(controls, source), InvertOf(e.1))))
    else if IsUnsignedSource(source) then
      Some(SetParamNormalized(e.0, ToNormalizedUnsigned(ControlOf(controls, source), InvertOf(e.1))))
    else None
  }

  /** The rate state and the sink's log, which apply changes. */
  datatype EngineOut = EngineOut(lastSetAt: RateState, sent: seq<ParamCall>)

  /** One iteration of apply's loop. */
  function EntryStep(rnbo: Option<SinkCaps>, controls: ControlValues, tMs: Option<real>, updateHz: real, st: EngineOut, e: Entry): EngineOut {
    if !Gated(e) then st
    else
      var g := CanSetNow(st.lastSetAt, e.0, tMs, updateHz);
      if !g.ok then st
      else
        var call := EntryCall(controls, e);
        EngineOut(g.last, st.sent + (if call.Some? then Deliver(rnbo, call.value) else []))
  }

  /** The loop of apply over the entries, in order. */
  function ApplyEntries(rnbo: Option<SinkCaps>, controls: ControlValues, tMs: Option<real>, updateHz: real, st: EngineOut, entries: seq<Entry>): EngineOut
    decreases |entries|
  {
    if |entries| == 0 then st
    else EntryStep(rnbo, controls, tMs, updateHz, ApplyEntries(rnbo, controls, tMs, updateHz, st, entries[..|entries| - 1]), entries[|entries| - 1])
  }

  /** apply(controls, tMs): nothing at all without a sink or without controls. */
  function ApplySpec(rnbo: Option<SinkCaps>, controls: Option<ControlValues>, tMs: Option<real>, updateHz: real, st: EngineOut, mapping: Mapping): EngineOut {
    if rnbo.None? || controls.None? then st
    else ApplyEntries(rnbo, controls.value, tMs, updateHz, st, mapping)
  }

  // ---------------------------------------------------------- reference definition

  /** The entry is written in this apply: gated, and admitted by the rate state apply started from. */
  predicate Admitted(last: RateState, tMs: Option<real>, updateHz: real, e: Entry) {
    Gated(e) && Admits(last, e.0, tMs, updateHz)
  }

  /** The rate state after apply, described entry by entry from the state it started from. */
  function ReferenceRate(last: RateState, tMs: Option<real>, updateHz: real, entries: seq<Entry>): RateState {
    Recorded(last, WrittenKeys(last, tMs, updateHz, entries), tMs)
  }

  /** The keys of the entries admitted by the starting state. */
  function WrittenKeys(last: RateState, tMs: Option<real>, updateHz: real, entries: seq<Entry>): set<string> {
    set i | 0 <= i < |entries| && Admitted(last, tMs, updateHz, entries[i]) :: entries[i].0
  }

  /** The rate state with tMs recorded for the written keys and every other key as it was. */
  function Recorded(last: RateState, written: set<string>, tMs: Option<real>): RateState {
    map k | k in last.Keys + written :: if k in written then tMs else last[k]
  }

  lemma RecordedAdd(last: RateState, written: set<string>, key: string, tMs: Option<real>)
    ensures Recorded(last, written + {key}, tMs) == Recorded(last, written, tMs)[key := tMs]
  {
    var a := Recorded(last, written + {key}, tMs);
    var b := Recorded(last, written, tMs)[key := tMs];
    assert a.Keys == b.Keys;
    forall k | k in a.Keys ensures a[k] == b[k] {}
  }

  /** The calls apply makes, described entry by entry from the state it started from. */
  function ReferenceCalls(rnbo: Option<SinkCaps>, controls: ControlValues, last: RateState, tMs: Option<real>, updateHz: real, entries: seq<Entry>): seq<ParamCall>
    decreases |entries|
  {
    if |entries| == 0 then []
    else
      ReferenceCalls(rnbo, controls, last, tMs, updateHz, entries[..|entries| - 1])
        + EntryCalls(rnbo, controls, last, tMs, updateHz, entries[|entries| - 1])
  }

  /** The call one entry contributes: at most one, for its own key, and only when the starting state admits it. */
  function EntryCalls(rnbo: Option<SinkCaps>, controls: ControlValues, last: RateState, tMs: Option<real>, updateHz: real, e: Entry): (r: seq<ParamCall>)
    ensures |r| <= 1
    ensures r != [] ==> Admitted(last, tMs, updateHz, e)
    ensures r != [] ==> r[0].SetParamNormalized? && r[0].paramId == e.0 && 0.0 <= r[0].value <= 1.0
    ensures rnbo.None? || !rnbo.value.hasSetParamNormalized ==> r == []
  {
    var call := EntryCall(controls, e);
    if Admitted(last, tMs, updateHz, e) && call.Some? then Deliver(rnbo, call.value) else []
  }

  /**
   * Since every paramId occurs once, the loop's threading of the rate state does
   * not matter: apply writes exactly the entries admitted by the starting state,
   * records tMs for exactly the gated and admitted keys, and leaves every other key as it was.
   */
  lemma {:induction false} ApplyMatchesReference(rnbo: Option<SinkCaps>, controls: ControlValues, tMs: Option<real>, updateHz: real, st: EngineOut, entries: seq<Entry>)
    requires DistinctKeys(entries)
    ensures ApplyEntries(rnbo, controls, tMs, updateHz, st, entries).lastSetAt == ReferenceRate(st.lastSetAt, tMs, updateHz, entries)
    ensures ApplyEntries(rnbo, controls, tMs, updateHz, st, entries).sent == st.sent + ReferenceCalls(rnbo, controls, st.lastSetAt, tMs, updateHz, entries)
    decreases |entries|
  {
    if |entries| == 0 {
      assert ReferenceRate(st.lastSetAt, tMs, updateHz, entries) == st.lastSetAt;
    } else {
      var n := |entries| - 1;
      var prefix := entries[..n];
      var e := entries[n];
      LastKeyIsFresh(entries);
      ApplyMatchesReference(rnbo, controls, tMs, updateHz, st, prefix);
      var mid := ApplyEntries(rnbo, controls, tMs, updateHz, st, prefix);
      // the prefix never admitted the last entry's key, so its record is the starting one
      assert e.0 !in WrittenKeys(st.lastSetAt, tMs, updateHz, prefix);
      EntryStepFromStart(rnbo, controls, tMs, updateHz, st.lastSetAt, mid, e);
      ReferenceRateStep(st.lastSetAt, tMs, updateHz, entries);
    }
  }

  /**
   * One entry whose key still has its starting record is written exactly when the
   * starting state admits it.
   */
  lemma EntryStepFromStart(rnbo: Option<SinkCaps>, controls: ControlValues, tMs: Option<real>, updateHz: real,
                           last: RateState, mid: EngineOut, e: Entry)
    requires (e.0 in mid.lastSetAt) == (e.0 in last)
    requires e.0 in last ==> mid.lastSetAt[e.0] == last[e.0]
    ensures var r := EntryStep(rnbo, controls, tMs, updateHz, mid, e);
      var call := EntryCall(controls, e);
      && r.lastSetAt == (if Admitted(last, tMs, updateHz, e) then mid.lastSetAt[e.0 := tMs] else mid.lastSetAt)
      && r.sent == mid.sent + (if Admitted(last, tMs, updateHz, e) && call.Some? then Deliver(rnbo, call.value) else [])
  {
    assert Admits(mid.lastSetAt, e.0, tMs, updateHz) == Admits(last, e.0, tMs, updateHz);
  }

  /** Adding a last entry with a fresh key to the reference rate state records that key exactly when it is admitted. */
  lemma ReferenceRateStep(last: RateState, tMs: Option<real>, updateHz: real, entries: seq<Entry>)
    requires |entries| > 0
    ensures var n := |entries| - 1; var e := entries[n];
      ReferenceRate(last, tMs, updateHz, entries) ==
        if Admitted(last, tMs, updateHz, e) then ReferenceRate(last, tMs, updateHz, entries[..n])[e.0 := tMs]
        else ReferenceRate(last, tMs, updateHz, entries[..n])
  {
    var n := |entries| - 1;
    var e := entries[n];
    WrittenKeysStep(last, tMs, updateHz, entries);
    if Admitted(last, tMs, updateHz, e) {
      RecordedAdd(last, WrittenKeys(last, tMs, updateHz, entries[..n]), e.0, tMs);
    }
  }

  /** The written keys of the entries are those of the prefix, and the last key when it is admitted. */
  lemma WrittenKeysStep(last: RateState, tMs: Option<real>, updateHz: real, entries: seq<Entry>)
    requires |entries| > 0
    ensures var n := |entries| - 1; var e := entries[n];
      WrittenKeys(last, tMs, updateHz, entries) ==
        WrittenKeys(last, tMs, updateHz, entries[..n]) + (if Admitted(last, tMs, updateHz, e) then {e.0} else {})
  {
    var n := |entries| - 1;
    var e := entries[n];
    var prefix := entries[..n];
    var written := WrittenKeys(last, tMs, updateHz, entries);
    var rhs := WrittenKeys(last, tMs, updateHz, prefix) + (if Admitted(last, tMs, updateHz, e) then {e.0} else {});
    forall k | k in written ensures k in rhs {
      var i :| 0 <= i < |entries| && Admitted(last, tMs, updateHz, entries[i]) && entries[i].0 == k;
      if i < n {
        assert prefix[i] == entries[i];
      }
    }
    forall k | k in rhs ensures k in written {
      if k in WrittenKeys(last, tMs, updateHz, prefix) {
        var i :| 0 <= i < |prefix| && Admitted(last, tMs, updateHz, prefix[i]) && prefix[i].0 == k;
        assert entries[i] == prefix[i];
      } else {
        assert entries[n] == e;
      }
    }
  }

  /** The key of the last entry is none of the earlier entries' keys. */
  lemma LastKeyIsFresh(entries: seq<Entry>)
    requires |entries| > 0 && DistinctKeys(entries)
    ensures var n := |entries| - 1;
      DistinctKeys(entries[..n]) && forall i :: 0 <= i < n ==> entries[..n][i].0 != entries[n].0
  {}

  /** The paramIds of a run of calls are pairwise distinct. */
  predicate DistinctParamIds(calls: seq<ParamCall>) {
    forall i, j :: 0 <= i < j < |calls| ==> calls[i].paramId != calls[j].paramId
  }

  /** The paramId is the key of some entry with a signal source that the starting state admits. */
  predicate WrittenKey(last: RateState, tMs: Option<real>, updateHz: real, entries: seq<Entry>, paramId: string) {
    exists i :: 0 <= i < |entries| && entries[i].0 == paramId && Admitted(last, tMs, updateHz, entries[i])
  }

  /**
   * Every reference call sets a normalised value in [0, 1], for an admitted entry;
   * without setParamNormalized on the sink there is none.
   */
  lemma {:induction false} ReferenceCallsWritten(rnbo: Option<SinkCaps>, controls: ControlValues, last: RateState, tMs: Option<real>, updateHz: real, entries: seq<Entry>)
    ensures forall c :: c in ReferenceCalls(rnbo, controls, last, tMs, updateHz, entries) ==>
      c.SetParamNormalized? && 0.0 <= c.value <= 1.0 && WrittenKey(last, tMs, updateHz, entries, c.paramId)
    ensures rnbo.None? || !rnbo.value.hasSetParamNormalized ==> ReferenceCalls(rnbo, controls, last, tMs, updateHz, entries) == []
    decreases |entries|
  {
    if |entries| > 0 {
      var n := |entries| - 1;
      var prefix := entries[..n];
      ReferenceCallsWritten(rnbo, controls, last, tMs, updateHz, prefix);
      var before := ReferenceCalls(rnbo, controls, last, tMs, updateHz, prefix);
      var added := EntryCalls(rnbo, controls, last, tMs, updateHz, entries[n]);
      forall c: ParamCall | c in before + added
        ensures c.SetParamNormalized? && 0.0 <= c.value <= 1.0 && WrittenKey(last, tMs, updateHz, entries, c.paramId)
      {
        if c in before {
          WrittenKeyExtends(last, tMs, updateHz, entries, c.paramId);
        } else {
          assert c == added[0];
          assert entries[n].0 == c.paramId;
        }
      }
    }
  }

  /** A key written by a prefix of the entries is written by the entries. */
  lemma WrittenKeyExtends(last: RateState, tMs: Option<real>, updateHz: real, entries: seq<Entry>, paramId: string)
    requires |entries| > 0 && WrittenKey(last, tMs, updateHz, entries[..|entries| - 1], paramId)
    ensures WrittenKey(last, tMs, updateHz, entries, paramId)
  {
    var prefix := entries[..|entries| - 1];
    var i :| 0 <= i < |prefix| && prefix[i].0 == paramId && Admitted(last, tMs, updateHz, prefix[i]);
    assert entries[i] == prefix[i];
  }

  /** No paramId is written twice by the reference calls. */
  lemma {:induction false} ReferenceCallsDistinct(rnbo: Option<SinkCaps>, controls: ControlValues, last: RateState, tMs: Option<real>, updateHz: real, entries: seq<Entry>)
    requires DistinctKeys(entries)
    ensures DistinctParamIds(ReferenceCalls(rnbo, controls, last, tMs, updateHz, entries))
    decreases |entries|
  {
    if |entries| > 0 {
      var n := |entries| - 1;
      var prefix := entries[..n];
      var e := entries[n];
      LastKeyIsFresh(entries);
      ReferenceCallsDistinct(rnbo, controls, last, tMs, updateHz, prefix);
      ReferenceCallsAvoid(rnbo, controls, last, tMs, updateHz, prefix, e.0);
      var added := EntryCalls(rnbo, controls, last, tMs, updateHz, e);
      if added != [] {
        var before := ReferenceCalls(rnbo, controls, last, tMs, updateHz, prefix);
        forall i | 0 <= i < |before| ensures before[i].paramId != e.0 {
          assert before[i] in before;
        }
        DistinctAppendOne(before, added[0]);
        assert added == [added[0]];
      }
    }
  }

  /** No reference call carries a key that no entry has. */
  lemma {:induction false} ReferenceCallsAvoid(rnbo: Option<SinkCaps>, controls: ControlValues, last: RateState, tMs: Option<real>, updateHz: real,
                                               entries: seq<Entry>, key: string)
    requires forall j :: 0 <= j < |entries| ==> entries[j].0 != key
    ensures forall c :: c in ReferenceCalls(rnbo, controls, last, tMs, updateHz, entries) ==> c.paramId != key
    decreases |entries|
  {
    if |entries| > 0 {
      var n := |entries| - 1;
      assert forall j :: 0 <= j < n ==> entries[..n][j] == entries[j];
      ReferenceCallsAvoid(rnbo, controls, last, tMs, updateHz, entries[..n], key);
      var before := ReferenceCalls(rnbo, controls, last, tMs, updateHz, entries[..n]);
      var added := EntryCalls(rnbo, controls, last, tMs, updateHz, entries[n]);
      forall c: ParamCall | c in before + added ensures c.paramId != key {
        if c !in before {
          assert c == added[0] && added[0].paramId == entries[n].0;
        }
      }
    }
  }

  lemma DistinctAppendOne(calls: seq<ParamCall>, c: ParamCall)
    requires DistinctParamIds(calls)
    requires forall i :: 0 <= i < |calls| ==> calls[i].paramId != c.paramId
    ensures DistinctParamIds(calls + [c])
  {}

  /**
   * What one apply does: nothing without a sink or controls; otherwise it appends
   * calls only, each a setParamNormalized with a value in [0, 1], at most one per
   * paramId and only for entries whose gate let them through; a key whose entries
   * are all skipped (source none or missing) keeps its rate record; and with the
   * app's controller, which has no setParamNormalized, nothing is ever written.
   */
  lemma ApplyProperties(rnbo: Option<SinkCaps>, controls: Option<ControlValues>, tMs: Option<real>, updateHz: real, st: EngineOut, mapping: Mapping)
    ensures rnbo.None? || controls.None? ==> ApplySpec(rnbo, controls, tMs, updateHz, st, mapping) == st
    ensures var r := ApplySpec(rnbo, controls, tMs, updateHz, st, mapping);
      && st.sent <= r.sent
      && DistinctParamIds(r.sent[|st.sent|..])
      && (forall c :: c in r.sent[|st.sent|..] ==>
            && c.SetParamNormalized?
            && 0.0 <= c.value <= 1.0
            && WrittenKey(st.lastSetAt, tMs, updateHz, mapping, c.paramId))
    ensures forall k :: k in st.lastSetAt && (forall i :: 0 <= i < |mapping| && mapping[i].0 == k ==> !Gated(mapping[i])) ==>
      var r := ApplySpec(rnbo, controls, tMs, updateHz, st, mapping);
      k in r.lastSetAt && r.lastSetAt[k] == st.lastSetAt[k]
    ensures rnbo == Some(RnboControllerCaps) ==> ApplySpec(rnbo, controls, tMs, updateHz, st, mapping).sent == st.sent
  {
    if rnbo.Some? && controls.Some? {
      ApplyMatchesReference(rnbo, controls.value, tMs, updateHz, st, mapping);
      ReferenceCallsWritten(rnbo, controls.value, st.lastSetAt, tMs, updateHz, mapping);
      ReferenceCallsDistinct(rnbo, controls.value, st.lastSetAt, tMs, updateHz, mapping);
      var r := ApplySpec(rnbo, controls, tMs, updateHz, st, mapping);
      assert r.sent[|st.sent|..] == ReferenceCalls(rnbo, controls.value, st.lastSetAt, tMs, updateHz, mapping);
    }
  }

  /**
   * A gated entry whose key the starting state admits has tMs recorded, whatever
   * its source (an unknown id consumes the slot without writing anything).
   */
  lemma ApplyConsumesSlot(rnbo: Option<SinkCaps>, controls: ControlValues, tMs: Option<real>, updateHz: real, st: EngineOut, mapping: Mapping, i: int)
    requires rnbo.Some? && 0 <= i < |mapping|
    requires Admitted(st.lastSetAt, tMs, updateHz, mapping[i])
    ensures var r := ApplySpec(rnbo, Some(controls), tMs, updateHz, st, mapping);
      mapping[i].0 in r.lastSetAt && r.lastSetAt[mapping[i].0] == tMs
  {
    ApplyMatchesReference(rnbo, controls, tMs, updateHz, st, mapping);
  }

  // ------------------------------------------------------------------------ state

  /** The object createMappingEngine returns, with the sink's log beside it. */
  class MappingEngine {
    const rnbo: Option<SinkCaps>
    const updateHz: real
    var mapping: Mapping
    var lastSetAt: RateState
    /** Every call the sink has received, oldest first. */
    var sent: seq<ParamCall>

    function Out(): EngineOut
      reads this
    {
      EngineOut(lastSetAt, sent)
    }

    /** createMappingEngine({ rnbo, mapping, updateHz }): a missing table is the empty one. */
    constructor(rnbo: Option<SinkCaps>, initialMapping: Option<Mapping>, updateHz: real)
      ensures this.rnbo == rnbo && this.updateHz == updateHz
      ensures mapping == (if initialMapping.Some? then initialMapping.value else [])
      ensures lastSetAt == map[] && sent == []
    {
      this.rnbo := rnbo;
      this.updateHz := updateHz;
      mapping := if initialMapping.Some? then initialMapping.value else [];
      lastSetAt := map[];
      sent := [];
    }

    /** setMapping(next): the table is replaced wholesale; null becomes {}. */
    method SetMapping(next: Option<Mapping>)
      modifies this
      ensures mapping == (if next.Some? then next.value else [])
      ensures lastSetAt == old(lastSetAt) && sent == old(sent)
    {
      mapping := if next.Some? then next.value else [];
    }

    /** apply(controls, tMs) */
    method Apply(controls: Option<ControlValues>, tMs: Option<real>)
      modifies this
      ensures mapping == old(mapping)
      ensures Out() == ApplySpec(rnbo, controls, tMs, updateHz, old(Out()), mapping)
    {
      if rnbo.None? || controls.None? {
        return;
      }
      var i := 0;
      while i < |mapping|
        invariant 0 <= i <= |mapping|
        invariant mapping == old(mapping)
        invariant Out() == ApplyEntries(rnbo, controls.value, tMs, updateHz, old(Out()), mapping[..i])
      {
        var (paramId, spec) := mapping[i];
        assert mapping[..i + 1][..i] == mapping[..i];
        var source := SourceOf(spec);
        if source != "none" {
          var gate := CanSetNow(lastSetAt, paramId, tMs, updateHz);
          lastSetAt := gate.last;
          if gate.ok {
            var invert := InvertOf(spec);
            if IsSignedSource(source) {
              sent := sent + Deliver(rnbo, SetParamNormalized(paramId, ToNormalizedSigned(ControlOf(controls.value, source), invert)));
            } else if IsUnsignedSource(source) {
              sent := sent + Deliver(rnbo, SetParamNormalized(paramId, ToNormalizedUnsigned(ControlOf(controls.value, source), invert)));
            }
          }
        }
        i := i + 1;
      }
      assert mapping[..i] == mapping;
    }
  }
}
