/** The enabled/disabled and data-type branches of the static-grid autograd
    functions `QuantizeDequantize` and `Quantize`. The native engine's
    quantize-dequantize and quantize, the fp16 round trip and the straight-through
    gradient are parameters. */
module StaticGridOps {
  import opened Common
  import opened Encodings
  import opened StaticGrid

  const FloatBitwidthMsg := "float data_type only supports bitwidth=16"
  const QuantizeBackwardMsg := "Backward pass for quantize only not implemented"
  const StackEmptyMsg := "stack expects a non-empty TensorList"

  /** `op.quantizeDequantize(tensor, encoding, round_mode, is_cuda)`. */
  type EngineQdq = (Engine, Encoding, Sample, string) -> Sample
  /** `op.quantize(tensor, encoding, round_mode, is_cuda, shift_to_signed)`. */
  type EngineQuantize = (Engine, Encoding, Sample, string, bool) -> Sample
  /** `grad_fn.compute_dloss_by_dx(tensor, grad, min, max, ch_axis)`. */
  type DlossByDx = (Sample, Sample, real, real, int) -> Sample

  /** `tensor.half().float()`, element by element. */
  function HalfRoundTrip(toHalf: real -> real, x: Sample): (y: Sample)
    ensures |y| == |x| && forall i :: 0 <= i < |x| ==> y[i] == toHalf(x[i])
  {
    seq(|x|, i requires 0 <= i < |x| => toHalf(x[i]))
  }

  /** `_per_tensor_quantize_dequantize` behind the `enabled` check of
      `QuantizeDequantize.forward`: the identity when disabled; with the float data
      type an fp16 round trip, refused unless the bitwidth is 16; otherwise the first
      engine applied with the encoding the per-tensor getter returns. */
  function PerTensorQuantizeDequantize(tensor: Sample, q: StaticGridTensorQuantizer, roundMode: string,
                                       qdq: EngineQdq, toHalf: real -> real): (r: Result<Sample>)
    reads q
    requires q.Valid() && q.kind.PerTensor?
    ensures !q.enabled ==> r == Ok(tensor)
    ensures q.enabled && q.dataType == Float ==>
      (r.Ok? <==> q.bitwidth == 16) && (r.Err? ==> r.error == ValueError(FloatBitwidthMsg)) &&
      (r.Ok? ==> |r.value| == |tensor| && forall i :: 0 <= i < |tensor| ==> r.value[i] == toHalf(tensor[i]))
    ensures q.enabled && q.dataType == Int ==>
      (r.Ok? <==> q.cppOp != [] && Truthy(q.encoding) && q.encoding.items[0].One?) &&
      (q.cppOp == [] ==> r == Err(IndexError)) &&
      (q.cppOp != [] && !r.Ok? ==> r == Err(TypeError)) &&
      (r.Ok? ==> r.value == qdq(q.cppOp[0], q.encoding.items[0].enc, tensor, roundMode))
  {
    if !q.enabled then Ok(tensor)
    else if q.dataType == Float then
      if q.bitwidth != 16 then Err(ValueError(FloatBitwidthMsg)) else Ok(HalfRoundTrip(toHalf, tensor))
    else if q.cppOp == [] then Err(IndexError)
    else
      var v := q.GetEncoding();
      if v.One? then Ok(qdq(q.cppOp[0], v.enc, tensor, roundMode)) else Err(TypeError)
  }

  // ---------------------------------------------------------------------------
  // Per-channel quantize-dequantize, on values

  /** Channel i: slice i of the tensor through engine i with encoding i; the slice is
      taken before the encoding is indexed. */
  function ChannelQdq(op: Engine, encoding: EncodingValue, slices: seq<Sample>, i: nat,
                      roundMode: string, qdq: EngineQdq): (r: Result<Sample>)
  {
    if i >= |slices| then Err(IndexError)
    else if !encoding.Many? then Err(TypeError)
    else if i >= |encoding.items| then Err(IndexError)
    else if !encoding.items[i].One? then Err(TypeError)
    else Ok(qdq(op, encoding.items[i].enc, slices[i], roundMode))
  }

  /** The channels from `i` on, in order, or the first error among them. */
  function ChannelsFrom(ops: seq<Engine>, encoding: EncodingValue, slices: seq<Sample>, roundMode: string,
                        qdq: EngineQdq, i: nat): (r: Result<seq<Sample>>)
    ensures r.Ok? ==> |r.value| == if i < |ops| then |ops| - i else 0
    decreases |ops| - i
  {
    if i >= |ops| then Ok([])
    else
      var c := ChannelQdq(ops[i], encoding, slices, i, roundMode, qdq);
      if c.Err? then Err(c.error)
      else
        var rest := ChannelsFrom(ops, encoding, slices, roundMode, qdq, i + 1);
        if rest.Err? then rest else Ok([c.value] + rest.value)
  }

  /** The integer branch of `_per_channel_quantize_dequantize`: every channel, then
      the stack, which refuses an empty list. */
  function ChannelwiseQdq(ops: seq<Engine>, encoding: EncodingValue, slices: seq<Sample>, roundMode: string,
                          qdq: EngineQdq): (r: Result<seq<Sample>>)
    ensures r.Ok? ==> 0 < |r.value| == |ops|
    ensures |ops| == 0 ==> r == Err(RuntimeError(StackEmptyMsg))
  {
    var cs := ChannelsFrom(ops, encoding, slices, roundMode, qdq, 0);
    if cs.Err? then cs
    else if cs.value == [] then Err(RuntimeError(StackEmptyMsg))
    else cs
  }

  /** The channels from `i` on all succeed exactly when each of them does, and then
      each output slice is its own channel's result. */
  lemma {:induction false} ChannelsFromSucceed(ops: seq<Engine>, encoding: EncodingValue, slices: seq<Sample>,
                                               roundMode: string, qdq: EngineQdq, i: nat)
    requires i <= |ops|
    ensures ChannelsFrom(ops, encoding, slices, roundMode, qdq, i).Ok? <==>
      forall j :: i <= j < |ops| ==> ChannelQdq(ops[j], encoding, slices, j, roundMode, qdq).Ok?
    ensures ChannelsFrom(ops, encoding, slices, roundMode, qdq, i).Ok? ==>
      var v := ChannelsFrom(ops, encoding, slices, roundMode, qdq, i).value;
      |v| == |ops| - i &&
      forall j :: i <= j < |ops| ==> v[j - i] == ChannelQdq(ops[j], encoding, slices, j, roundMode, qdq).value
    decreases |ops| - i
  {
    if i < |ops| {
      ChannelsFromSucceed(ops, encoding, slices, roundMode, qdq, i + 1);
    }
  }

  /** Every engine quantizes its own slice with its own encoding: the integer
      per-channel forward succeeds exactly when there is at least one engine, at
      least as many slices and encodings as engines, and each encoding an engine
      uses is present; output slice i is engine i on slice i with encoding i. */
  lemma ChannelwiseQdqPerChannel(ops: seq<Engine>, encoding: EncodingValue, slices: seq<Sample>,
                                 roundMode: string, qdq: EngineQdq)
    ensures ChannelwiseQdq(ops, encoding, slices, roundMode, qdq).Ok? <==>
      0 < |ops| <= |slices| && encoding.Many? && |ops| <= |encoding.items| &&
      forall j :: 0 <= j < |ops| ==> encoding.items[j].One?
    ensures ChannelwiseQdq(ops, encoding, slices, roundMode, qdq).Ok? ==>
      var v := ChannelwiseQdq(ops, encoding, slices, roundMode, qdq).value;
      |v| == |ops| && forall j :: 0 <= j < |ops| ==> v[j] == qdq(ops[j], encoding.items[j].enc, slices[j], roundMode)
  {
    ChannelsFromSucceed(ops, encoding, slices, roundMode, qdq, 0);
    var allOk := forall j :: 0 <= j < |ops| ==> ChannelQdq(ops[j], encoding, slices, j, roundMode, qdq).Ok?;
    if 0 < |ops| && allOk {
      var last := |ops| - 1;
      assert ChannelQdq(ops[last], encoding, slices, last, roundMode, qdq).Ok?;
      assert last < |slices| && encoding.Many? && last < |encoding.items|;
      forall j | 0 <= j < |ops|
        ensures encoding.items[j].One?
      {
        assert ChannelQdq(ops[j], encoding, slices, j, roundMode, qdq).Ok?;
      }
    }
  }

  /** `_per_channel_quantize_dequantize` behind the `enabled` check, over the
      tensor's slices along the channel axis. */
  method PerChannelQuantizeDequantize(slices: seq<Sample>, q: StaticGridTensorQuantizer, roundMode: string,
                                      qdq: EngineQdq, toHalf: real -> real) returns (r: Result<seq<Sample>>)
    requires q.kind.PerChannel?
    ensures !q.enabled ==> r == Ok(slices)
    ensures q.enabled && q.dataType == Float ==>
      (r.Ok? <==> q.bitwidth == 16) && (r.Err? ==> r.error == ValueError(FloatBitwidthMsg)) &&
      (r.Ok? ==> |r.value| == |slices| &&
                 forall c :: 0 <= c < |slices| ==> r.value[c] == HalfRoundTrip(toHalf, slices[c]))
    ensures q.enabled && q.dataType == Int ==> r == ChannelwiseQdq(q.cppOp, q.encoding, slices, roundMode, qdq)
  {
    if !q.enabled {
      return Ok(slices);
    }
    if q.dataType == Float {
      if q.bitwidth != 16 {
        return Err(ValueError(FloatBitwidthMsg));
      }
      return Ok(seq(|slices|, c requires 0 <= c < |slices| => HalfRoundTrip(toHalf, slices[c])));
    }
    var ops := q.cppOp;
    var outs: seq<Sample> := [];
    var i := 0;
    ghost var all := ChannelsFrom(ops, q.encoding, slices, roundMode, qdq, 0);
    if all.Ok? {
      assert outs + all.value == all.value;
    }
    while i < |ops|
      invariant 0 <= i <= |ops|
      invariant ChannelsFrom(ops, q.encoding, slices, roundMode, qdq, 0) ==
        (var rest := ChannelsFrom(ops, q.encoding, slices, roundMode, qdq, i);
         if rest.Err? then rest else Ok(outs + rest.value))
    {
      if i >= |slices| {
        return Err(IndexError);
      }
      if !q.encoding.Many? {
        return Err(TypeError);
      }
      if i >= |q.encoding.items| {
        return Err(IndexError);
      }
      if !q.encoding.items[i].One? {
        return Err(TypeError);
      }
      var computed := qdq(ops[i], q.encoding.items[i].enc, slices[i], roundMode);
      var rest := ChannelsFrom(ops, q.encoding, slices, roundMode, qdq, i + 1);
      assert outs + ([computed] + if rest.Err? then [] else rest.value) ==
             (outs + [computed]) + if rest.Err? then [] else rest.value;
      outs := outs + [computed];
      i := i + 1;
    }
    assert outs + [] == outs;
    if outs == [] {
      return Err(RuntimeError(StackEmptyMsg));
    }
    r := Ok(outs);
  }

  /** `QuantizeDequantize.backward`: the incoming gradient passes through unchanged
      unless the quantizer is enabled with the integer data type; then the
      straight-through gradient needs the `.min`/`.max` of what the `encoding` getter
      returns, which only a bare encoding has. */
  function QuantizeDequantizeBackward(saved: Sample, grad: Sample, q: StaticGridTensorQuantizer,
                                      dlossByDx: DlossByDx): (r: Result<Sample>)
    reads q
    requires q.Valid()
    ensures !(q.enabled && q.dataType == Int) ==> r == Ok(grad)
    ensures q.enabled && q.dataType == Int ==>
      (r.Ok? <==> q.GetEncoding().One?) && (r.Err? ==> r.error == AttributeError)
    ensures q.enabled && q.dataType == Int && q.kind.PerTensor? ==>
      (r.Ok? <==> Truthy(q.encoding) && q.encoding.items[0].One?) &&
      (r.Ok? ==> var e := q.encoding.items[0].enc; r.value == dlossByDx(saved, grad, e.min, e.max, 0))
    ensures q.enabled && q.dataType == Int && q.kind.PerChannel? && !q.encoding.One? ==> r == Err(AttributeError)
    ensures q.enabled && q.dataType == Int && r.Ok? ==>
      var e := q.GetEncoding().enc;
      r.value == dlossByDx(saved, grad, e.min, e.max, if q.kind.PerChannel? then q.kind.chAxis else 0)
  {
    if q.enabled && q.dataType == Int then
      var chAxis := if q.kind.PerChannel? then q.kind.chAxis else 0;
      var v := q.GetEncoding();
      if v.One? then Ok(dlossByDx(saved, grad, v.enc.min, v.enc.max, chAxis)) else Err(AttributeError)
    else Ok(grad)
  }

  /** `Quantize.forward`: the identity when disabled; otherwise the first engine
      quantizes with the getter's encoding, shifting to the signed range exactly when
      the encodings are symmetric and the offset is negative. The offset is read only
      when symmetric. */
  function QuantizeForward(tensor: Sample, q: StaticGridTensorQuantizer, roundMode: string,
                           quantize: EngineQuantize): (r: Result<Sample>)
    reads q
    requires q.Valid()
    ensures !q.enabled ==> r == Ok(tensor)
    ensures q.enabled ==> (r.Ok? <==> q.cppOp != [] && q.GetEncoding().One?)
    ensures q.enabled && q.useSymmetricEncodings && !q.GetEncoding().One? ==> r == Err(AttributeError)
    ensures q.enabled && !q.useSymmetricEncodings && !q.GetEncoding().One? ==>
      r == Err(if q.cppOp == [] then IndexError else TypeError)
    ensures q.enabled && q.GetEncoding().One? && q.cppOp == [] ==> r == Err(IndexError)
    ensures r.Ok? && q.enabled ==>
      var e := q.GetEncoding().enc;
      r.value == quantize(q.cppOp[0], e, tensor, roundMode, q.useSymmetricEncodings && e.offset < 0.0)
  {
    if !q.enabled then Ok(tensor)
    else
      var v := q.GetEncoding();
      if q.useSymmetricEncodings && !v.One? then Err(AttributeError)
      else
        var shiftToSigned := q.useSymmetricEncodings && v.enc.offset < 0.0;
        if q.cppOp == [] then Err(IndexError)
        else if !v.One? then Err(TypeError)
        else Ok(quantize(q.cppOp[0], v.enc, tensor, roundMode, shiftToSigned))
  }

  /** `Quantize.backward` always raises. */
  function QuantizeBackward(grad: Sample): (r: Result<Sample>)
    ensures r == Err(AssertionError(QuantizeBackwardMsg))
  {
    Err(AssertionError(QuantizeBackwardMsg))
  }
}
