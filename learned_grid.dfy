/** The learned-grid quantizer: integer bounds (n, p) of its grid, the clamp and
    boundary mask of its forward pass, and the state machine formed by its encoding
    setter, `freeze_encoding` and the guard of `quantize_dequantize`. Its min/max
    encodings live as parameters on a host module (the wrapper). */
module LearnedGrid {
  import opened Common
  import opened Encodings
  import opened DtypeTable

  const StrictNeedsSymmetricMsg := "Strict symmetric can be enabled only when using symmetric encoding"
  const OnlyIntSupportedMsg := "Only QuantizationDataType.int is supported for LearnedGridTensorQuantizer"
  const NoneWhileEnabledMsg := "Encodings cannot be None if Quantizer is enabled."
  const NotTfEncodingMsg := "Encodings should be a libpymo.TfEncoding() object"
  const ForwardMismatchMsg :=
    "Forward pass used for compute_encodings differs from forward pass used during training"
  /** Messages of the host runtime when a tensor with zero or several elements is used as a bool. */
  const NoValuesAmbiguousMsg := "Boolean value of Tensor with no values is ambiguous"
  const ManyValuesAmbiguousMsg := "Boolean value of Tensor with more than one value is ambiguous"

  // ---------------------------------------------------------------------------
  // Bounds of the grid

  /** The lower and upper code of the clamped (always unsigned) domain. */
  datatype Bounds = Bounds(n: int, p: int)

  /** `get_n_and_p`: n = 0 and p = 2^bitwidth - 1, one less under strict symmetry;
      strict symmetry without symmetry is a configuration error. */
  function GetNAndP(bitwidth: nat, useSymmetricEncoding: bool, useStrictSymmetric: bool): (r: Result<Bounds>)
    ensures r.Err? <==> !useSymmetricEncoding && useStrictSymmetric
    ensures r.Err? ==> r.error == ValueError(StrictNeedsSymmetricMsg)
    ensures r.Ok? ==> r.value.n == 0
    ensures r.Ok? && !useStrictSymmetric ==> r.value.p == Pow2(bitwidth) - 1
    ensures r.Ok? && useStrictSymmetric ==> r.value.p == Pow2(bitwidth) - 2
  {
    if !useSymmetricEncoding && useStrictSymmetric then
      Err(ValueError(StrictNeedsSymmetricMsg))
    else
      var p := Pow2(bitwidth) - 1;
      Ok(Bounds(0, if useSymmetricEncoding && useStrictSymmetric then p - 1 else p))
  }

  /** Every code of the grid fits in `bitwidth` unsigned bits, and the grid uses all
      2^bitwidth codes except the one that strict symmetry gives up. */
  lemma GridFitsBitwidth(bitwidth: nat, sym: bool, strict: bool, v: int)
    requires GetNAndP(bitwidth, sym, strict).Ok?
    ensures var b := GetNAndP(bitwidth, sym, strict).value;
      b.p - b.n + 1 == Pow2(bitwidth) - (if strict then 1 else 0) &&
      (b.n <= v <= b.p ==> 0 <= v < Pow2(bitwidth))
  {
  }

  /** Strict symmetry is exactly what gives a grid of at least one bit an integer
      centre code c with as many codes below it as above it. */
  lemma {:induction false} StrictGridHasCentre(bitwidth: nat, sym: bool, strict: bool)
    requires bitwidth >= 1
    requires GetNAndP(bitwidth, sym, strict).Ok?
    ensures var b := GetNAndP(bitwidth, sym, strict).value;
      strict <==> (b.p - b.n) % 2 == 0
  {
    var half := Pow2(bitwidth - 1);
    assert Pow2(bitwidth) == 2 * half;
    var b := GetNAndP(bitwidth, sym, strict).value;
    if strict {
      assert b.p - b.n == 2 * (half - 1);
    } else {
      assert b.p - b.n == 2 * (half - 1) + 1;
    }
  }

  // ---------------------------------------------------------------------------
  // Clamp and mask of the forward pass, over already-rounded codes q

  /** `clamp(q, n, p)` as the host runtime defines it: max with n, then min with p. */
  function Clamp(q: int, n: int, p: int): (c: int)
    ensures n <= p ==> n <= c <= p
    ensures n <= p ==> (c == q <==> n <= q <= p)
  {
    var lifted := if q < n then n else q;
    if lifted > p then p else lifted
  }

  function ClampOut(q: seq<int>, n: int, p: int): (c: seq<int>)
    ensures |c| == |q|
    ensures forall i :: 0 <= i < |q| ==> c[i] == Clamp(q[i], n, p)
  {
    seq(|q|, i requires 0 <= i < |q| => Clamp(q[i], n, p))
  }

  /** `quantize_out.ge(n) * quantize_out.le(p)`. */
  function Mask(q: seq<int>, n: int, p: int): (m: seq<bool>)
    ensures |m| == |q|
    ensures forall i :: 0 <= i < |q| ==> (m[i] <==> n <= q[i] <= p)
  {
    seq(|q|, i requires 0 <= i < |q| => n <= q[i] && q[i] <= p)
  }

  /** On a non-empty grid the clamped codes lie in [n, p], and the mask marks
      exactly the codes the clamp left unchanged (the linear region of STE). */
  lemma ClampAndMask(q: seq<int>, n: int, p: int)
    requires n <= p
    ensures forall i :: 0 <= i < |q| ==> n <= ClampOut(q, n, p)[i] <= p
    ensures forall i :: 0 <= i < |q| ==> (Mask(q, n, p)[i] <==> n <= q[i] <= p)
    ensures forall i :: 0 <= i < |q| ==> (Mask(q, n, p)[i] <==> ClampOut(q, n, p)[i] == q[i])
  {
  }

  /** What the forward pass keeps for the backward pass, besides the real tensors:
      the clamped codes, the mask, and the clamped codes as saved in the integer
      type chosen by the dtype table (None where that type cannot hold the code). */
  datatype ForwardSaved = ForwardSaved(clampOut: seq<int>, mask: seq<bool>, savedClampOut: seq<Option<int>>)

  function ForwardWith(q: seq<int>, b: Bounds, d: Dtype): (s: ForwardSaved)
    ensures s.clampOut == ClampOut(q, b.n, b.p) && s.mask == Mask(q, b.n, b.p)
    ensures |s.clampOut| == |q| && |s.mask| == |q| && |s.savedClampOut| == |q|
    ensures forall i :: 0 <= i < |q| ==> s.savedClampOut[i] == Saved(d, s.clampOut[i])
  {
    var c := ClampOut(q, b.n, b.p);
    ForwardSaved(c, Mask(q, b.n, b.p), seq(|c|, i requires 0 <= i < |c| => Saved(d, c[i])))
  }

  /** The clamp/mask part of `QuantizeDequantizeFunc.forward` as written: the saved
      type is the table entry for (bitwidth, symmetric, unsigned-symmetric), int32 on a miss. */
  function ForwardAsWritten(q: seq<int>, b: Bounds, key: EncodingParams): (s: ForwardSaved)
    ensures s.clampOut == ClampOut(q, b.n, b.p) && s.mask == Mask(q, b.n, b.p) && |s.savedClampOut| == |q|
    ensures forall i :: 0 <= i < |q| ==>
      (s.savedClampOut[i] == Some(s.clampOut[i]) <==> Representable(DtypeForClampOutAsWritten(key), s.clampOut[i]))
  {
    ForwardWith(q, b, DtypeForClampOutAsWritten(key))
  }

  /** The same with the corrected table; the rest of the model uses this one. */
  function Forward(q: seq<int>, b: Bounds, key: EncodingParams): (s: ForwardSaved)
    ensures s.clampOut == ClampOut(q, b.n, b.p) && s.mask == Mask(q, b.n, b.p) && |s.savedClampOut| == |q|
    ensures forall i :: 0 <= i < |q| ==>
      (s.savedClampOut[i] == Some(s.clampOut[i]) <==> Representable(DtypeForClampOut(key), s.clampOut[i]))
  {
    ForwardWith(q, b, DtypeForClampOut(key))
  }

  /** As written, an 8-bit symmetric grid with signed storage saves its codes as
      int8, yet its codes run up to 255: code 200 is clamped to itself and lost.
      The 16-bit grid saves as int16 and loses code 40000 of its 65535 the same way. */
  lemma ForwardAsWrittenLosesCodes()
    ensures GetNAndP(8, true, false) == Ok(Bounds(0, 255))
    ensures var s := ForwardAsWritten([200], Bounds(0, 255), EncodingParams(8, true, false));
      s.clampOut == [200] && s.mask == [true] && s.savedClampOut == [None]
    ensures GetNAndP(16, true, false) == Ok(Bounds(0, 65535))
    ensures var s := ForwardAsWritten([40000], Bounds(0, 65535), EncodingParams(16, true, false));
      s.clampOut == [40000] && s.mask == [true] && s.savedClampOut == [None]
  {
    assert Pow2(8) == 256;
    Pow2Add(8, 8);
  }

  /** With the corrected table every clamped code of a grid of at most 31 bits is
      saved exactly, whatever the symmetry flags. */
  lemma {:induction false} ForwardSavesClampOut(q: seq<int>, bitwidth: nat, sym: bool, strict: bool, unsignedSym: bool)
    requires bitwidth <= 31
    requires GetNAndP(bitwidth, sym, strict).Ok?
    ensures var b := GetNAndP(bitwidth, sym, strict).value;
      var s := Forward(q, b, EncodingParams(bitwidth, sym, unsignedSym));
      forall i :: 0 <= i < |q| ==> s.savedClampOut[i] == Some(s.clampOut[i])
  {
    var b := GetNAndP(bitwidth, sym, strict).value;
    var key := EncodingParams(bitwidth, sym, unsignedSym);
    var s := Forward(q, b, key);
    if bitwidth >= 1 || !strict {
      forall i | 0 <= i < |q|
        ensures s.savedClampOut[i] == Some(s.clampOut[i])
      {
        CorrectedTableHoldsCodes(key, s.clampOut[i]);
      }
    } else {
      // a 0-bit strict grid has p = -1 < n: every code clamps to -1
      forall i | 0 <= i < |q|
        ensures s.savedClampOut[i] == Some(s.clampOut[i])
      {
        assert s.clampOut[i] == -1;
      }
    }
  }

  // ---------------------------------------------------------------------------
  // Encoding parameters on the host module

  /** A trainable tensor parameter of the host module. */
  datatype Param = Param(values: seq<real>, requiresGrad: bool)

  /** The host module ("wrapper") that stores the quantizer's min/max parameters;
      `params` is its parameter dictionary, in which a name may be bound to None. */
  class Wrapper {
    var params: map<string, Option<Param>>

    constructor (params: map<string, Option<Param>>)
      ensures this.params == params
    {
      this.params := params;
    }
  }

  /** `not t` for a parameter: None is falsy, a one-element tensor is falsy when its
      value is zero, and any other element count cannot be read as a bool. */
  function NotTensor(t: Option<Param>): (r: Result<bool>)
    ensures t.None? ==> r == Ok(true)
    ensures t.Some? && |t.value.values| == 1 ==> r == Ok(t.value.values[0] == 0.0)
    ensures t.Some? && |t.value.values| != 1 ==> r.Err?
  {
    match t
    case None => Ok(true)
    case Some(param) =>
      if |param.values| == 1 then Ok(param.values[0] == 0.0)
      else if |param.values| == 0 then Err(RuntimeError(NoValuesAmbiguousMsg))
      else Err(RuntimeError(ManyValuesAmbiguousMsg))
  }

  function StopGrad(t: Param): (r: Param)
  {
    t.(requiresGrad := false)
  }

  /** The result of freezing: what is raised, the new parameter dictionary, and
      whether the quantizer's frozen flag was set. */
  datatype FreezeResult = FreezeResult(outcome: Outcome, params: map<string, Option<Param>>, setsFrozen: bool)

  /** `LearnedGridTensorQuantizer.freeze_encoding` as written: the guard uses tensor
      truthiness (`not min and not max`), then the flag is set, then gradient
      tracking is switched off on both parameters. */
  function FreezeAsWritten(params: map<string, Option<Param>>, minKey: string, maxKey: string): (r: FreezeResult)
    ensures r.params != params ==> r.setsFrozen
    ensures r.outcome == Fail(RuntimeError(FreezeWithoutEncodingMsg)) <==>
      (minKey in params && maxKey in params &&
       NotTensor(params[minKey]) == Ok(true) && NotTensor(params[maxKey]) == Ok(true))
    ensures r.outcome == Fail(RuntimeError(FreezeWithoutEncodingMsg)) ==> r.params == params && !r.setsFrozen
    // A missing min whose max is truthy passes the guard: the flag is set, then reading the min raises.
    ensures minKey in params && params[minKey].None? && maxKey in params && NotTensor(params[maxKey]) == Ok(false) ==>
      r == FreezeResult(Fail(AttributeError), params, true)
    ensures r.outcome.Done? <==>
      (minKey in params && maxKey in params && params[minKey].Some? && params[maxKey].Some? &&
       NotTensor(params[minKey]).Ok? &&
       (NotTensor(params[minKey]) == Ok(true) ==> NotTensor(params[maxKey]) == Ok(false)))
    ensures r.outcome.Done? ==>
      (r.setsFrozen && r.params.Keys == params.Keys
       && r.params[minKey] == Some(Param(params[minKey].value.values, false))
       && r.params[maxKey] == Some(Param(params[maxKey].value.values, false))
       && forall k :: k in params && k != minKey && k != maxKey ==> r.params[k] == params[k])
  {
    if minKey !in params then FreezeResult(Fail(KeyError), params, false)
    else
      var notMin := NotTensor(params[minKey]);
      if notMin.Err? then FreezeResult(Fail(notMin.error), params, false)
      else if notMin.value && maxKey !in params then FreezeResult(Fail(KeyError), params, false)
      else
        var notMax := if notMin.value then NotTensor(params[maxKey]) else Ok(false);
        if notMax.Err? then FreezeResult(Fail(notMax.error), params, false)
        else if notMin.value && notMax.value then
          FreezeResult(Fail(RuntimeError(FreezeWithoutEncodingMsg)), params, false)
        else if params[minKey].None? then FreezeResult(Fail(AttributeError), params, true)
        else
          var afterMin := params[minKey := Some(StopGrad(params[minKey].value))];
          if maxKey !in afterMin then FreezeResult(Fail(KeyError), afterMin, true)
          else if afterMin[maxKey].None? then FreezeResult(Fail(AttributeError), afterMin, true)
          else FreezeResult(Done, afterMin[maxKey := Some(StopGrad(afterMin[maxKey].value))], true)
  }

  /** As written, a per-channel quantizer (two channels here) cannot be frozen:
      reading its min parameter as a bool raises. */
  lemma FreezeAsWrittenRejectsPerChannel()
    ensures var params := map["w_encoding_min" := Some(Param([-1.0, -2.0], true)),
                              "w_encoding_max" := Some(Param([1.0, 2.0], true))];
      FreezeAsWritten(params, "w_encoding_min", "w_encoding_max")
        == FreezeResult(Fail(RuntimeError(ManyValuesAmbiguousMsg)), params, false)
  {
  }

  /** Freezing as intended: refused exactly when a min or max parameter is missing,
      otherwise the flag is set and both parameters stop tracking gradients, with
      their values and every other parameter unchanged, whatever the channel count. */
  function Freeze(params: map<string, Option<Param>>, minKey: string, maxKey: string): (r: FreezeResult)
    ensures r.outcome.Fail? <==>
      minKey !in params || maxKey !in params || params[minKey].None? || params[maxKey].None?
    ensures r.outcome.Fail? ==>
      (r.outcome.error == RuntimeError(FreezeWithoutEncodingMsg) && r.params == params && !r.setsFrozen)
    ensures r.outcome.Done? ==>
      (r.setsFrozen && r.params.Keys == params.Keys
       && r.params[minKey] == Some(Param(params[minKey].value.values, false))
       && r.params[maxKey] == Some(Param(params[maxKey].value.values, false))
       && forall k :: k in params && k != minKey && k != maxKey ==> r.params[k] == params[k])
  {
    if minKey !in params || maxKey !in params || params[minKey].None? || params[maxKey].None? then
      FreezeResult(Fail(RuntimeError(FreezeWithoutEncodingMsg)), params, false)
    else
      FreezeResult(Done, params[minKey := Some(StopGrad(params[minKey].value))]
                           [maxKey := Some(StopGrad(params[maxKey].value))], true)
  }

  // ---------------------------------------------------------------------------
  // Setting and reading the encoding

  /** `_set_encoding_min_max_parameters` on values: the per-channel mins and maxes to
      store and the bitwidth to adopt (that of the first encoding), or what it raises. */
  function MinMaxParameters(arg: EncodingValue): (r: Result<(seq<real>, seq<real>, nat)>)
    ensures arg.One? ==> r == Ok(([arg.enc.min], [arg.enc.max], arg.enc.bw))
    ensures IsEncodingList(arg) && |arg.items| > 0 ==>
      (r.Ok? &&
       var encs := Unwrap(arg);
       |r.value.0| == |encs| && |r.value.1| == |encs| && r.value.2 == encs[0].bw &&
       forall i :: 0 <= i < |encs| ==> r.value.0[i] == encs[i].min && r.value.1[i] == encs[i].max)
    ensures arg == NoEncoding ==> r == Err(AssertionError(NotTfEncodingMsg))
    ensures arg == Many([]) ==> r == Err(IndexError)
    ensures arg.Many? && |arg.items| > 0 && !arg.items[0].One? ==> r == Err(AssertionError(NotTfEncodingMsg))
    ensures arg.Many? && |arg.items| > 0 && arg.items[0].One? && !IsEncodingList(arg) ==> r == Err(AttributeError)
  {
    match arg
    case NoEncoding => Err(AssertionError(NotTfEncodingMsg))
    case One(e) => Ok(([e.min], [e.max], e.bw))
    case Many(items) =>
      if |items| == 0 then Err(IndexError)
      else if !items[0].One? then Err(AssertionError(NotTfEncodingMsg))
      else if !IsEncodingList(arg) then Err(AttributeError)
      else
        var encs := Unwrap(arg);
        Ok((seq(|encs|, i requires 0 <= i < |encs| => encs[i].min),
            seq(|encs|, i requires 0 <= i < |encs| => encs[i].max),
            encs[0].bw))
  }

  /** The encodings `_compute_updated_encoding` derives from the parameters: one per
      (min, max) pair of the zip, delta and offset from `compute_scaling_offset`. */
  function UpdatedEncodings(mins: seq<real>, maxs: seq<real>, bitwidth: nat, p: int,
                            scalingOffset: (real, real, int) -> (real, real)): (encs: seq<Encoding>)
    ensures |encs| == if |mins| <= |maxs| then |mins| else |maxs|
    ensures forall i :: 0 <= i < |encs| ==>
      encs[i].min == mins[i] && encs[i].max == maxs[i] && encs[i].bw == bitwidth &&
      (encs[i].delta, encs[i].offset) == scalingOffset(mins[i], maxs[i], p)
  {
    var len := if |mins| <= |maxs| then |mins| else |maxs|;
    seq(len, i requires 0 <= i < len =>
      var so := scalingOffset(mins[i], maxs[i], p);
      Encoding(mins[i], maxs[i], so.0, so.1, bitwidth))
  }

  /** A single encoding is returned bare, any other number as a list. */
  function BareIfSingle(encs: seq<Encoding>): (v: EncodingValue)
    ensures |encs| == 1 ==> v == One(encs[0])
    ensures |encs| != 1 ==> v == ListOf(encs)
  {
    if |encs| == 1 then One(encs[0]) else ListOf(encs)
  }

  /** Setting then reading the encoding gives back, channel by channel, the min and
      max that were set, and the bitwidth of the first encoding; only delta and
      offset are recomputed. */
  lemma {:induction false} SetThenGetEncoding(encs: seq<Encoding>, p: int,
                                              scalingOffset: (real, real, int) -> (real, real))
    requires |encs| > 0
    ensures MinMaxParameters(ListOf(encs)).Ok?
    ensures var mm := MinMaxParameters(ListOf(encs)).value;
      var got := UpdatedEncodings(mm.0, mm.1, mm.2, p, scalingOffset);
      |got| == |encs| && forall i :: 0 <= i < |encs| ==>
        got[i].min == encs[i].min && got[i].max == encs[i].max && got[i].bw == encs[0].bw
  {
    assert Unwrap(ListOf(encs)) == encs;
  }

  // ---------------------------------------------------------------------------
  // The quantizer

  class LearnedGridTensorQuantizer {
    var roundMode: string
    var quantScheme: QuantScheme
    var useSymmetricEncodings: bool
    var useStrictSymmetric: bool
    var useUnsignedSymmetric: bool
    var bitwidth: nat
    var enabled: bool
    var isEncodingFrozen: bool
    var n: int
    var p: int
    /** The host module holding the min/max parameters, and the name prefixing their keys. */
    const wrapper: Wrapper
    const name: string
    const chAxis: int

    function MinKey(): (k: string)
    {
      name + "_encoding_min"
    }

    function MaxKey(): (k: string)
    {
      name + "_encoding_max"
    }

    /** The constructor proper (the data type has been checked by `Create`): the base
        defaults, and bounds for a non-strict grid. */
    constructor (bitwidth: nat, roundMode: string, quantScheme: QuantScheme,
                 useSymmetricEncodings: bool, enabledByDefault: bool, wrapper: Wrapper, name: string)
      ensures this.bitwidth == bitwidth && this.roundMode == roundMode && this.quantScheme == quantScheme
      ensures this.useSymmetricEncodings == useSymmetricEncodings && !useStrictSymmetric && useUnsignedSymmetric
      ensures enabled == enabledByDefault && !isEncodingFrozen
      ensures this.wrapper == wrapper && this.name == name && chAxis == 0
      ensures n == 0 && p == Pow2(bitwidth) - 1
    {
      this.roundMode := roundMode;
      this.quantScheme := quantScheme;
      this.useSymmetricEncodings := useSymmetricEncodings;
      useStrictSymmetric := false;
      useUnsignedSymmetric := true;
      this.bitwidth := bitwidth;
      enabled := enabledByDefault;
      isEncodingFrozen := false;
      this.wrapper := wrapper;
      this.name := name;
      chAxis := 0;
      var b := GetNAndP(bitwidth, useSymmetricEncodings, false).value;
      n, p := b.n, b.p;
    }

    /** `LearnedGridTensorQuantizer(...)`: only the integer data type is accepted. */
    static method Create(bitwidth: nat, roundMode: string, quantScheme: QuantScheme,
                         useSymmetricEncodings: bool, enabledByDefault: bool, dataType: DataType,
                         wrapper: Wrapper, name: string)
      returns (r: Result<LearnedGridTensorQuantizer>)
      ensures r.Err? <==> dataType != Int
      ensures r.Err? ==> r.error == ValueError(OnlyIntSupportedMsg)
      ensures r.Ok? ==>
        (fresh(r.value) && r.value.bitwidth == bitwidth && r.value.enabled == enabledByDefault
         && !r.value.isEncodingFrozen && r.value.n == 0 && r.value.p == Pow2(bitwidth) - 1
         && r.value.wrapper == wrapper && r.value.name == name)
    {
      if dataType != Int {
        return Err(ValueError(OnlyIntSupportedMsg));
      }
      var q := new LearnedGridTensorQuantizer(bitwidth, roundMode, quantScheme, useSymmetricEncodings,
                                              enabledByDefault, wrapper, name);
      r := Ok(q);
    }

    /** The `encoding` setter. A disabled quantizer ignores it. An enabled one refuses
        None and refuses any change once frozen; otherwise it replaces the min/max
        parameters (trainable again), adopts the encoding's bitwidth and recomputes
        (n, p), which may still raise after the parameters were written. */
    method SetEncoding(arg: EncodingValue) returns (r: Outcome)
      modifies this`bitwidth, this`n, this`p, wrapper`params
      ensures !old(enabled) ==> r == Done && unchanged(this) && unchanged(wrapper)
      ensures old(enabled) && arg == NoEncoding ==>
        r == Fail(AssertionError(NoneWhileEnabledMsg)) && unchanged(this) && unchanged(wrapper)
      ensures old(enabled) && arg != NoEncoding && isEncodingFrozen ==>
        r == Fail(RuntimeError(FrozenMsg)) && unchanged(this) && unchanged(wrapper)
      ensures old(enabled) && arg != NoEncoding && !isEncodingFrozen && MinMaxParameters(arg).Err? ==>
        r == Fail(MinMaxParameters(arg).error) && unchanged(this) && unchanged(wrapper)
      ensures old(enabled) && arg != NoEncoding && !isEncodingFrozen && MinMaxParameters(arg).Ok? ==>
        var mm := MinMaxParameters(arg).value;
        var bounds := GetNAndP(mm.2, useSymmetricEncodings, useStrictSymmetric);
        bitwidth == mm.2 &&
        wrapper.params == old(wrapper.params)[MinKey() := Some(Param(mm.0, true))]
                                             [MaxKey() := Some(Param(mm.1, true))] &&
        (bounds.Err? ==> r == Fail(bounds.error) && n == old(n) && p == old(p)) &&
        (bounds.Ok? ==> r == Done && n == bounds.value.n && p == bounds.value.p)
    {
      if !enabled {
        return Done;
      }
      if arg == NoEncoding {
        return Fail(AssertionError(NoneWhileEnabledMsg));
      }
      if isEncodingFrozen {
        return Fail(RuntimeError(FrozenMsg));
      }
      var mm := MinMaxParameters(arg);
      if mm.Err? {
        return Fail(mm.error);
      }
      var mins, maxs, bw := mm.value.0, mm.value.1, mm.value.2;
      wrapper.params := wrapper.params[MinKey() := Some(Param(mins, true))][MaxKey() := Some(Param(maxs, true))];
      bitwidth := bw;
      var bounds := GetNAndP(bitwidth, useSymmetricEncodings, useStrictSymmetric);
      if bounds.Err? {
        return Fail(bounds.error);
      }
      n, p := bounds.value.n, bounds.value.p;
      r := Done;
    }

    /** The `encoding` getter: None when disabled; otherwise one encoding per
        (min, max) pair read from the host module, bare when there is exactly one. */
    method GetEncoding(scalingOffset: (real, real, int) -> (real, real)) returns (r: Result<EncodingValue>)
      ensures !enabled ==> r == Ok(NoEncoding)
      ensures enabled && (MinKey() !in wrapper.params || MaxKey() !in wrapper.params) ==> r == Err(AttributeError)
      ensures (enabled && MinKey() in wrapper.params && MaxKey() in wrapper.params &&
               (wrapper.params[MinKey()].None? || wrapper.params[MaxKey()].None?)) ==> r == Err(TypeError)
      ensures (enabled && MinKey() in wrapper.params && MaxKey() in wrapper.params &&
               wrapper.params[MinKey()].Some? && wrapper.params[MaxKey()].Some?) ==>
        r == Ok(BareIfSingle(UpdatedEncodings(wrapper.params[MinKey()].value.values,
                                              wrapper.params[MaxKey()].value.values,
                                              bitwidth, p, scalingOffset)))
    {
      if !enabled {
        return Ok(NoEncoding);
      }
      if MinKey() !in wrapper.params || MaxKey() !in wrapper.params {
        return Err(AttributeError);
      }
      var minParam, maxParam := wrapper.params[MinKey()], wrapper.params[MaxKey()];
      if minParam.None? || maxParam.None? {
        return Err(TypeError);
      }
      var mins, maxs := minParam.value.values, maxParam.value.values;
      var len := if |mins| <= |maxs| then |mins| else |maxs|;
      var encodings: seq<Encoding> := [];
      var i := 0;
      while i < len
        invariant 0 <= i <= len
        invariant encodings == UpdatedEncodings(mins, maxs, bitwidth, p, scalingOffset)[..i]
      {
        var so := scalingOffset(mins[i], maxs[i], p);
        encodings := encodings + [Encoding(mins[i], maxs[i], so.0, so.1, bitwidth)];
        i := i + 1;
      }
      assert encodings == UpdatedEncodings(mins, maxs, bitwidth, p, scalingOffset);
      r := Ok(BareIfSingle(encodings));
    }

    /** `freeze_encoding`, with the guard corrected to test for missing parameters. */
    method FreezeEncoding() returns (r: Outcome)
      modifies this`isEncodingFrozen, wrapper`params
      ensures var f := Freeze(old(wrapper.params), MinKey(), MaxKey());
        r == f.outcome && wrapper.params == f.params &&
        isEncodingFrozen == (old(isEncodingFrozen) || f.setsFrozen)
    {
      var f := Freeze(wrapper.params, MinKey(), MaxKey());
      wrapper.params := f.params;
      if f.setsFrozen {
        isEncodingFrozen := true;
      }
      r := f.outcome;
    }

    /** The guard of `quantize_dequantize`: identity when disabled; when enabled, a
        missing min or max is an error, and otherwise the differentiable operator runs. */
    function QuantizeDequantize(tensor: Sample, encodingMin: Option<seq<real>>, encodingMax: Option<seq<real>>,
                                apply: (Sample, seq<real>, seq<real>) -> Sample): (r: Result<Sample>)
      reads this
      ensures !enabled ==> r == Ok(tensor)
      ensures enabled ==> (r.Err? <==> encodingMin.None? || encodingMax.None?)
      ensures r.Err? ==> r.error == RuntimeError(ForwardMismatchMsg)
      ensures enabled && r.Ok? ==> r.value == apply(tensor, encodingMin.value, encodingMax.value)
    {
      if !enabled then Ok(tensor)
      else if encodingMax.None? || encodingMin.None? then Err(RuntimeError(ForwardMismatchMsg))
      else Ok(apply(tensor, encodingMin.value, encodingMax.value))
    }
  }
}
