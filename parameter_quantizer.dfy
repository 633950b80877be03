/** `ParameterQuantizer`: quantizing the parameters of a learned-grid wrapper
    with the encoding-min/max tensors passed in as one flat list (slots `2*index`
    and `2*index + 1` for the parameter at `index`), and assembling the matching
    flat list of encoding gradients in the backward pass. */
module ParameterQuantizer {
  import opened Common
  import opened Encodings

  /** One `(name, param)` of `get_named_parameters()`: its data and its gradient. */
  datatype NamedParam = NamedParam(name: string, data: Sample, grad: Option<Sample>)

  /** `compute_gradients(param, quantizer, grad)` for the named parameter: the
      gradients of its encoding min and max. */
  type ComputeGradients = (string, Sample, Sample) -> (Sample, Sample)

  /** `quantize_dequantize(data, encoding_min, encoding_max)` of the named
      parameter's quantizer. */
  type ParamQdq = (string, Sample, Sample, Sample) -> Sample

  /** The learned-grid wrapper as the parameter quantizer sees it: its parameters in
      order, and whether each parameter's quantizer is enabled, by name. */
  class TrainableWrapper {
    var namedParams: seq<NamedParam>
    var enabledOf: map<string, bool>

    constructor(namedParams: seq<NamedParam>, enabledOf: map<string, bool>)
      ensures this.namedParams == namedParams && this.enabledOf == enabledOf
    {
      this.namedParams := namedParams;
      this.enabledOf := enabledOf;
    }
  }

  predicate AllQuantized(params: seq<NamedParam>, enabledOf: map<string, bool>)
  {
    forall i :: 0 <= i < |params| ==> params[i].name in enabledOf
  }

  /** The encoding-min gradient of a parameter, None when it has no gradient. */
  function MinGrad(p: NamedParam, cg: ComputeGradients): (g: Option<Sample>)
  {
    if p.grad.Some? then Some(cg(p.name, p.data, p.grad.value).0) else None
  }

  function MaxGrad(p: NamedParam, cg: ComputeGradients): (g: Option<Sample>)
  {
    if p.grad.Some? then Some(cg(p.name, p.data, p.grad.value).1) else None
  }

  /** The parameters whose quantizer is enabled, in order. */
  function EnabledParams(params: seq<NamedParam>, enabledOf: map<string, bool>): (ps: seq<NamedParam>)
    requires AllQuantized(params, enabledOf)
    ensures |ps| <= |params|
  {
    if params == [] then []
    else
      var last := params[|params| - 1];
      EnabledParams(params[..|params| - 1], enabledOf) + (if enabledOf[last.name] then [last] else [])
  }

  // ---------------------------------------------------------------------------
  // backward_pass_for_parameters as written: disabled parameters contribute nothing

  function GradsOfAsWritten(p: NamedParam, enabled: bool, cg: ComputeGradients): (gs: seq<Option<Sample>>)
  {
    if enabled then [MinGrad(p, cg), MaxGrad(p, cg)] else []
  }

  function EncodingGradsAsWritten(params: seq<NamedParam>, enabledOf: map<string, bool>,
                                  cg: ComputeGradients): (r: Result<seq<Option<Sample>>>)
    ensures r.Err? ==> r.error == KeyError
    ensures r.Ok? ==> AllQuantized(params, enabledOf) && |r.value| == 2 * |EnabledParams(params, enabledOf)|
  {
    if params == [] then Ok([])
    else
      var init := EncodingGradsAsWritten(params[..|params| - 1], enabledOf, cg);
      var last := params[|params| - 1];
      if init.Err? then init
      else if last.name !in enabledOf then Err(KeyError)
      else Ok(init.value + GradsOfAsWritten(last, enabledOf[last.name], cg))
  }

  /** As written, the list holds two entries per enabled parameter and none for a
      disabled one: entries `2k` and `2k + 1` are the gradients of the k-th enabled
      parameter, and a parameter without a quantizer is a key error. */
  lemma {:induction false} EncodingGradsAsWrittenLayout(params: seq<NamedParam>, enabledOf: map<string, bool>,
                                                        cg: ComputeGradients)
    ensures EncodingGradsAsWritten(params, enabledOf, cg).Ok? <==> AllQuantized(params, enabledOf)
    ensures EncodingGradsAsWritten(params, enabledOf, cg).Err? ==>
      EncodingGradsAsWritten(params, enabledOf, cg).error == KeyError
    ensures AllQuantized(params, enabledOf) ==>
      var v := EncodingGradsAsWritten(params, enabledOf, cg).value;
      var en := EnabledParams(params, enabledOf);
      |v| == 2 * |en| &&
      forall k :: 0 <= k < |en| ==> v[2 * k] == MinGrad(en[k], cg) && v[2 * k + 1] == MaxGrad(en[k], cg)
    decreases |params|
  {
    if params != [] {
      var init := params[..|params| - 1];
      EncodingGradsAsWrittenLayout(init, enabledOf, cg);
      assert forall i :: 0 <= i < |init| ==> init[i] == params[i];
      if !AllQuantized(init, enabledOf) {
        assert !AllQuantized(params, enabledOf);
      }
    }
  }

  // ---------------------------------------------------------------------------
  // backward_pass_for_parameters, corrected: two entries for every parameter

  /** The two gradient slots of one parameter: its min/max gradients when enabled,
      two Nones otherwise. */
  function GradsOf(p: NamedParam, enabled: bool, cg: ComputeGradients): (g: seq<Option<Sample>>)
    ensures |g| == 2
  {
    if enabled then [MinGrad(p, cg), MaxGrad(p, cg)] else [None, None]
  }

  function EncodingGrads(params: seq<NamedParam>, enabledOf: map<string, bool>,
                         cg: ComputeGradients): (r: Result<seq<Option<Sample>>>)
    ensures r.Err? ==> r.error == KeyError
    ensures r.Ok? ==> AllQuantized(params, enabledOf) && |r.value| == 2 * |params|
  {
    if params == [] then Ok([])
    else
      var init := EncodingGrads(params[..|params| - 1], enabledOf, cg);
      var last := params[|params| - 1];
      if init.Err? then init
      else if last.name !in enabledOf then Err(KeyError)
      else Ok(init.value + GradsOf(last, enabledOf[last.name], cg))
  }

  /** Corrected, slots `2i` and `2i + 1` of the gradient list belong to parameter i,
      the very slots `quantize_parameters` reads its encoding min and max from. */
  lemma {:induction false} EncodingGradsLayout(params: seq<NamedParam>, enabledOf: map<string, bool>,
                                               cg: ComputeGradients)
    ensures EncodingGrads(params, enabledOf, cg).Ok? <==> AllQuantized(params, enabledOf)
    ensures EncodingGrads(params, enabledOf, cg).Err? ==> EncodingGrads(params, enabledOf, cg).error == KeyError
    ensures AllQuantized(params, enabledOf) ==>
      var v := EncodingGrads(params, enabledOf, cg).value;
      |v| == 2 * |params| &&
      forall i :: 0 <= i < |params| ==>
        v[2 * i] == (if enabledOf[params[i].name] then MinGrad(params[i], cg) else None) &&
        v[2 * i + 1] == (if enabledOf[params[i].name] then MaxGrad(params[i], cg) else None)
    decreases |params|
  {
    if params != [] {
      var init := params[..|params| - 1];
      EncodingGradsLayout(init, enabledOf, cg);
      assert forall i :: 0 <= i < |init| ==> init[i] == params[i];
      if !AllQuantized(init, enabledOf) {
        assert !AllQuantized(params, enabledOf);
      }
    }
  }

  /** With a disabled parameter ahead of an enabled one, the list as written puts
      the enabled parameter's gradients in slots 0 and 1 (the disabled parameter's
      encoding min and max) and has no slot 2 or 3, where that parameter's encoding
      min and max were read from; the corrected list has them in slots 2 and 3. */
  lemma GradSlotsMisalignedAsWritten(cg: ComputeGradients)
    ensures
      var a := NamedParam("a", [1.0], Some([0.5]));
      var b := NamedParam("b", [2.0], Some([0.25]));
      var enabledOf := map["a" := false, "b" := true];
      var asWritten := EncodingGradsAsWritten([a, b], enabledOf, cg);
      var corrected := EncodingGrads([a, b], enabledOf, cg);
      asWritten.Ok? && |asWritten.value| == 2 && asWritten.value[0] == MinGrad(b, cg) &&
      corrected.Ok? && |corrected.value| == 4 && corrected.value[0] == None &&
      corrected.value[2] == MinGrad(b, cg) && corrected.value[3] == MaxGrad(b, cg)
  {
    var a := NamedParam("a", [1.0], Some([0.5]));
    var b := NamedParam("b", [2.0], Some([0.25]));
    var enabledOf := map["a" := false, "b" := true];
    assert "a"[0] != "b"[0];
    var one, two := [a], [a, b];
    assert two[..|two| - 1] == one && one[..|one| - 1] == [];
    var none: seq<NamedParam> := [];
    assert a.name in enabledOf && !enabledOf[a.name] && b.name in enabledOf && enabledOf[b.name];
    var w0, c0 := EncodingGradsAsWritten(none, enabledOf, cg), EncodingGrads(none, enabledOf, cg);
    var w1, c1 := EncodingGradsAsWritten(one, enabledOf, cg), EncodingGrads(one, enabledOf, cg);
    assert w1 == Ok(w0.value + GradsOfAsWritten(a, false, cg));
    assert c1 == Ok(c0.value + GradsOf(a, false, cg));
    assert EncodingGradsAsWritten(two, enabledOf, cg) == Ok(w1.value + GradsOfAsWritten(b, true, cg));
    assert EncodingGrads(two, enabledOf, cg) == Ok(c1.value + GradsOf(b, true, cg));
  }

  /** `backward_pass_for_parameters` (corrected): one pass over the parameters,
      appending each one's two gradient slots. */
  method BackwardPassForParameters(w: TrainableWrapper, cg: ComputeGradients) returns (r: Result<seq<Option<Sample>>>)
    ensures r == EncodingGrads(w.namedParams, w.enabledOf, cg)
  {
    var params := w.namedParams;
    var grads: seq<Option<Sample>> := [];
    var i := 0;
    while i < |params|
      invariant 0 <= i <= |params|
      invariant EncodingGrads(params[..i], w.enabledOf, cg) == Ok(grads)
    {
      assert params[..i + 1][..i] == params[..i];
      var p := params[i];
      if p.name !in w.enabledOf {
        EncodingGradsLayout(params[..i + 1], w.enabledOf, cg);
        EncodingGradsLayout(params, w.enabledOf, cg);
        assert params[..i + 1][i] == p;
        return Err(KeyError);
      }
      if w.enabledOf[p.name] && p.grad.Some? {
        var g := cg(p.name, p.data, p.grad.value);
        grads := grads + [Some(g.0), Some(g.1)];
      } else {
        grads := grads + [None, None];
      }
      i := i + 1;
    }
    assert params[..i] == params;
    r := Ok(grads);
  }

  // ---------------------------------------------------------------------------
  // quantize_parameters

  /** What `quantize_parameters` does to the parameter at `index`: a disabled one is
      left alone; an enabled one is quantize-dequantized with slots `2*index` and
      `2*index + 1` of the encoding parameters. A None slot makes the subtraction in
      `compute_scaling_offset` raise TypeError before the quantizer's own None check. */
  function QuantizedParam(p: NamedParam, index: nat, enabledOf: map<string, bool>, encodingParams: seq<Option<Sample>>,
                          qdq: ParamQdq): (r: Result<NamedParam>)
    ensures r.Ok? ==> r.value.name == p.name && r.value.grad == p.grad
    ensures r == Err(KeyError) <==> p.name !in enabledOf
    ensures p.name in enabledOf && !enabledOf[p.name] ==> r == Ok(p)
    ensures p.name in enabledOf && enabledOf[p.name] ==>
      (r == Err(IndexError) <==> 2 * index + 1 >= |encodingParams|)
    ensures p.name in enabledOf && enabledOf[p.name] && 2 * index + 1 < |encodingParams| ==>
      (r == Err(TypeError) <==> encodingParams[2 * index].None? || encodingParams[2 * index + 1].None?)
    ensures r.Ok? && enabledOf[p.name] ==>
      r.value.data == qdq(p.name, p.data, encodingParams[2 * index].value, encodingParams[2 * index + 1].value)
  {
    if p.name !in enabledOf then Err(KeyError)
    else if !enabledOf[p.name] then Ok(p)
    else if 2 * index + 1 >= |encodingParams| then Err(IndexError)
    else if encodingParams[2 * index].None? || encodingParams[2 * index + 1].None? then Err(TypeError)
    else Ok(p.(data := qdq(p.name, p.data, encodingParams[2 * index].value, encodingParams[2 * index + 1].value)))
  }

  predicate QuantizedUpTo(params: seq<NamedParam>, k: nat, enabledOf: map<string, bool>,
                          encodingParams: seq<Option<Sample>>, qdq: ParamQdq)
    requires k <= |params|
  {
    forall j :: 0 <= j < k ==> QuantizedParam(params[j], j, enabledOf, encodingParams, qdq).Ok?
  }

  /** `quantize_parameters`: the parameters are rewritten in order; the first one
      whose quantizer is missing, whose slots are beyond the list or hold None raises, leaving
      the ones before it rewritten and the rest untouched. */
  method QuantizeParameters(w: TrainableWrapper, encodingParams: seq<Option<Sample>>, qdq: ParamQdq) returns (r: Outcome)
    modifies w`namedParams
    ensures |w.namedParams| == |old(w.namedParams)|
    ensures forall i :: 0 <= i < |w.namedParams| ==>
      w.namedParams[i] ==
        if QuantizedUpTo(old(w.namedParams), i + 1, w.enabledOf, encodingParams, qdq)
        then QuantizedParam(old(w.namedParams)[i], i, w.enabledOf, encodingParams, qdq).value
        else old(w.namedParams)[i]
    ensures r.Done? <==> QuantizedUpTo(old(w.namedParams), |old(w.namedParams)|, w.enabledOf, encodingParams, qdq)
    ensures r.Fail? ==>
      exists k :: 0 <= k < |old(w.namedParams)| &&
        QuantizedUpTo(old(w.namedParams), k, w.enabledOf, encodingParams, qdq) &&
        QuantizedParam(old(w.namedParams)[k], k, w.enabledOf, encodingParams, qdq) == Err(r.error)
  {
    ghost var params := w.namedParams;
    var i := 0;
    while i < |w.namedParams|
      invariant 0 <= i <= |w.namedParams| == |params|
      invariant QuantizedUpTo(params, i, w.enabledOf, encodingParams, qdq)
      invariant forall j :: 0 <= j < i ==>
        w.namedParams[j] == QuantizedParam(params[j], j, w.enabledOf, encodingParams, qdq).value
      invariant forall j :: i <= j < |params| ==> w.namedParams[j] == params[j]
    {
      var p := w.namedParams[i];
      if p.name !in w.enabledOf {
        return Fail(KeyError);
      }
      if w.enabledOf[p.name] {
        if 2 * i + 1 >= |encodingParams| {
          return Fail(IndexError);
        }
        var encodingMin := encodingParams[2 * i];
        var encodingMax := encodingParams[2 * i + 1];
        if encodingMin.None? || encodingMax.None? {
          return Fail(TypeError);
        }
        w.namedParams := w.namedParams[i := p.(data := qdq(p.name, p.data, encodingMin.value, encodingMax.value))];
      }
      i := i + 1;
    }
    r := Done;
  }
}
