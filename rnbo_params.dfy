/** The parameter helpers of lib/rnbo/params.js. */
module RnboParams {
  import opened Wrappers
  import opened JsNumbers

  /** A parameter descriptor; `visible` none is undefined. */
  datatype ParamDescriptor = ParamDescriptor(id: string, paramType: string, visible: Option<bool>)

  /** `desc.parameters`, none when missing. */
  datatype Desc = Desc(parameters: Option<seq<ParamDescriptor>>)

  /** A patcher export; `desc` none when missing. */
  datatype Patcher = Patcher(desc: Option<Desc>)

  /** The descriptor is listed: a number parameter that is not explicitly hidden. */
  predicate IsListed(p: ParamDescriptor) {
    p.paramType == "ParameterTypeNumber" && p.visible != Some(false)
  }

  /** `Array.filter` with IsListed, keeping the order. */
  function FilterListed(ps: seq<ParamDescriptor>): (r: seq<ParamDescriptor>)
    ensures |r| <= |ps|
    ensures forall p :: p in r ==> IsListed(p) && p in ps
    ensures forall p :: p in ps && IsListed(p) ==> p in r
  {
    if |ps| == 0 then []
    else if IsListed(ps[0]) then [ps[0]] + FilterListed(ps[1..])
    else FilterListed(ps[1..])
  }

  /** Filtering distributes over concatenation, so the kept descriptors keep their relative order. */
  lemma {:induction false} FilterAppend(a: seq<ParamDescriptor>, b: seq<ParamDescriptor>)
    ensures FilterListed(a + b) == FilterListed(a) + FilterListed(b)
  {
    if |a| > 0 {
      assert (a + b)[1..] == a[1..] + b;
      FilterAppend(a[1..], b);
    } else {
      assert a + b == b;
    }
  }

  /** Filtering twice is filtering once. */
  lemma {:induction false} FilterIdempotent(ps: seq<ParamDescriptor>)
    ensures FilterListed(FilterListed(ps)) == FilterListed(ps)
  {
    if |ps| > 0 {
      FilterIdempotent(ps[1..]);
      if IsListed(ps[0]) {
        assert ([ps[0]] + FilterListed(ps[1..]))[1..] == FilterListed(ps[1..]);
      }
    }
  }

  /** `patcher?.desc?.parameters || []`, filtered. */
  function ListNumberParamDescriptors(patcher: Option<Patcher>): (r: seq<ParamDescriptor>)
    ensures patcher.None? || patcher.value.desc.None? || patcher.value.desc.value.parameters.None? ==> r == []
    ensures patcher.Some? && patcher.value.desc.Some? && patcher.value.desc.value.parameters.Some? ==>
      r == FilterListed(patcher.value.desc.value.parameters.value)
  {
    var all := if patcher.Some? && patcher.value.desc.Some? && patcher.value.desc.value.parameters.Some?
      then patcher.value.desc.value.parameters.value else [];
    FilterListed(all)
  }

  /**
   * deriveSliderStep(min, max, steps): with a number of steps above 1 the range
   * divided into steps - 1 equal parts (an infinite count gives 0); otherwise
   * 0.001 for a range up to 1, 1 for an integer range from 2 to 2048, and then
   * 0.01 up to 10, 0.1 up to 100 and 1 beyond.
   */
  function DeriveSliderStep(min: real, max: real, steps: Num): (r: real)
    ensures steps.Finite? && steps.r > 1.0 ==> r * (steps.r - 1.0) == max - min
    ensures steps.PosInfinity? ==> r == 0.0
    ensures !(steps.Finite? && steps.r > 1.0) && !steps.PosInfinity? ==>
      && r > 0.0
      && (max - min <= 1.0 ==> r == 0.001)
      && (IsInteger(min) && IsInteger(max) && 2.0 <= max - min <= 2048.0 ==> r == 1.0)
      && (!(IsInteger(min) && IsInteger(max)) && 1.0 < max - min <= 10.0 ==> r == 0.01)
      && (!(IsInteger(min) && IsInteger(max)) && 10.0 < max - min <= 100.0 ==> r == 0.1)
      && (max - min > 100.0 ==> r == 1.0)
  {
    if steps.Finite? && steps.r > 1.0 then (max - min) / (steps.r - 1.0)
    else if steps.PosInfinity? then 0.0
    else
      var range := max - min;
      if range <= 1.0 then 0.001
      else if IsInteger(min) && IsInteger(max) && range >= 2.0 && range <= 2048.0 then 1.0
      else if range <= 10.0 then 0.01
      else if range <= 100.0 then 0.1
      else 1.0
  }
}
