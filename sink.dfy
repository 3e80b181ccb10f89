/**
 * The parameter sink both the mapping engine and the bridge write to. Its methods
 * are called with optional chaining (`rnbo?.setParamNormalized?.(id, v)`), so a
 * missing sink or a missing method makes the call a no-op. The sink is modelled as
 * the log of calls it has received.
 */
module Sink {
  import opened Wrappers

  /** One call into the sink. */
  datatype ParamCall =
    | SetParamNormalized(paramId: string, value: real)
    | SetParamValue(paramId: string, value: real)

  /** Which of the two methods the sink object has. */
  datatype SinkCaps = SinkCaps(hasSetParamNormalized: bool, hasSetParamValue: bool)

  /**
   * The controller of lib/rnbo/controller.js exposes setParamValue and no
   * setParamNormalized (its returned object, lines 207-213).
   */
  const RnboControllerCaps: SinkCaps := SinkCaps(false, true)

  /** The calls that actually reach the sink: the call itself when the sink has that method, nothing otherwise. */
  function Deliver(rnbo: Option<SinkCaps>, call: ParamCall): (r: seq<ParamCall>)
    ensures |r| <= 1
    ensures r == [call] <==> rnbo.Some? && (if call.SetParamNormalized? then rnbo.value.hasSetParamNormalized else rnbo.value.hasSetParamValue)
    ensures r != [call] ==> r == []
  {
    if rnbo.None? then []
    else if call.SetParamNormalized? && rnbo.value.hasSetParamNormalized then [call]
    else if call.SetParamValue? && rnbo.value.hasSetParamValue then [call]
    else []
  }
}
