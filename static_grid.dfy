/** The static-grid quantizers: one native engine per channel (exactly one for a
    per-tensor quantizer) accumulating statistics, the encodings computed from
    them, the frozen flag that stops all further change, and the pickled form. */
module StaticGrid {
  import opened Common
  import opened Encodings

  const HistogramSchemeMsg :=
    "get_stats_histogram() can be invoked only when quantization scheme is TF-Enhanced."
  const HistogramEncodingMsg := "get_stats_histogram() can be invoked only when encoding is computed."

  // ---------------------------------------------------------------------------
  // Native engines, seen from outside

  /** A native engine: the scheme it was created with and the statistics it has
      accumulated, kept as the samples fed to it since it was created or reset. */
  datatype Engine = Engine(scheme: QuantScheme, samples: seq<Sample>)

  function NewEngine(scheme: QuantScheme): (op: Engine)
  {
    Engine(scheme, [])
  }

  /** `updateStats`: the engine has seen one more sample. */
  function Feed(op: Engine, x: Sample): (fed: Engine)
  {
    op.(samples := op.samples + [x])
  }

  /** `resetEncodingStats`: the engine forgets every sample. */
  function ClearStats(op: Engine): (cleared: Engine)
  {
    op.(samples := [])
  }

  /** `getEncoding(bitwidth, symmetric, strict-symmetric, unsigned-symmetric)`:
      a candidate encoding and whether the statistics sufficed to make it valid. */
  type GetEncodingFn = (Engine, nat, bool, bool, bool) -> (Encoding, bool)

  /** One histogram bucket per entry: (left edge, relative density). */
  type Histogram = seq<(real, real)>

  // ---------------------------------------------------------------------------
  // compute_encoding, on values

  /** The engines' answers, in engine order. */
  function EngineResults(ops: seq<Engine>, getEncoding: GetEncodingFn, bitwidth: nat,
                         sym: bool, strict: bool, unsignedSym: bool): (rs: seq<(Encoding, bool)>)
    ensures |rs| == |ops|
    ensures forall i :: 0 <= i < |ops| ==> rs[i] == getEncoding(ops[i], bitwidth, sym, strict, unsignedSym)
  {
    seq(|ops|, i requires 0 <= i < |ops| => getEncoding(ops[i], bitwidth, sym, strict, unsignedSym))
  }

  /** The valid encodings among the answers, in engine order. */
  function ValidEncodings(rs: seq<(Encoding, bool)>): (encs: seq<Encoding>)
    ensures |encs| <= |rs|
  {
    if rs == [] then []
    else ValidEncodings(rs[..|rs| - 1]) + (if rs[|rs| - 1].1 then [rs[|rs| - 1].0] else [])
  }

  predicate AllValid(rs: seq<(Encoding, bool)>)
  {
    forall i :: 0 <= i < |rs| ==> rs[i].1
  }

  predicate NoneValid(rs: seq<(Encoding, bool)>)
  {
    forall i :: 0 <= i < |rs| ==> !rs[i].1
  }

  /** Keeping the valid answers keeps all of them, in order, exactly when all are
      valid, and keeps nothing exactly when none is. */
  lemma {:induction false} ValidEncodingsAllOrNothing(rs: seq<(Encoding, bool)>)
    ensures |ValidEncodings(rs)| == |rs| <==> AllValid(rs)
    ensures ValidEncodings(rs) == [] <==> NoneValid(rs)
    ensures AllValid(rs) ==> forall i :: 0 <= i < |rs| ==> ValidEncodings(rs)[i] == rs[i].0
  {
    if rs != [] {
      var init := rs[..|rs| - 1];
      ValidEncodingsAllOrNothing(init);
      assert forall i :: 0 <= i < |init| ==> init[i] == rs[i];
      if !AllValid(init) {
        assert !AllValid(rs);
      }
      if !NoneValid(init) {
        var k :| 0 <= k < |init| && init[k].1;
        assert rs[k].1;
      }
    }
  }

  /** One more engine answer: the valid list grows by that answer when it is valid,
      and all answers stay valid exactly when it is. */
  lemma ExtendResults(rs: seq<(Encoding, bool)>, i: nat)
    requires i < |rs|
    ensures ValidEncodings(rs[..i + 1]) ==
      ValidEncodings(rs[..i]) + (if rs[i].1 then [rs[i].0] else [])
    ensures AllValid(rs[..i + 1]) == (AllValid(rs[..i]) && rs[i].1)
  {
    assert rs[..i + 1][..i] == rs[..i];
    assert forall j :: 0 <= j < i ==> rs[..i + 1][j] == rs[..i][j];
  }

  /** The two end states `compute_encoding` admits: every engine valid, all their
      encodings in engine order and still enabled; or none valid, an empty list and
      disabled. */
  predicate AllOrNothingState(ops: seq<Engine>, rs: seq<(Encoding, bool)>, encoding: EncodingValue, enabled: bool)
    requires |rs| == |ops|
  {
    (enabled && encoding.Many? && |encoding.items| == |ops| &&
     forall i :: 0 <= i < |ops| ==> encoding.items[i] == One(rs[i].0))
    || (!enabled && encoding == Many([]))
  }

  /** The end state `compute_encoding` admits without its assertion failing: either
      every engine gave a valid encoding and the list holds all of them in engine
      order, or no engine did and the list is empty. */
  lemma ComputeEncodingAllOrNothing(rs: seq<(Encoding, bool)>)
    requires AllValid(rs) || ValidEncodings(rs) == []
    ensures (AllValid(rs) && |ValidEncodings(rs)| == |rs| &&
             forall i :: 0 <= i < |rs| ==> ValidEncodings(rs)[i] == rs[i].0)
         || (NoneValid(rs) && ValidEncodings(rs) == [])
  {
    ValidEncodingsAllOrNothing(rs);
  }

  // ---------------------------------------------------------------------------
  // The per-tensor accessors, on values

  /** What the per-tensor setter stores: a one-element list as is, anything else
      wrapped into a one-element list. */
  function PerTensorStored(arg: EncodingValue): (stored: EncodingValue)
    ensures stored.Many? && |stored.items| == 1
  {
    if arg.Many? && |arg.items| == 1 then arg else Many([arg])
  }

  /** What the per-tensor getter returns: the first element of a non-empty list,
      None otherwise. */
  function PerTensorView(stored: EncodingValue): (v: EncodingValue)
    requires !stored.One?
    ensures Truthy(stored) ==> v == stored.items[0]
    ensures !Truthy(stored) ==> v == NoEncoding
  {
    if Truthy(stored) then stored.items[0] else NoEncoding
  }

  /** Setting then getting on a per-tensor quantizer gives back what was set,
      except that a one-element list comes back as its element. */
  lemma PerTensorSetThenGet(arg: EncodingValue)
    ensures PerTensorView(PerTensorStored(arg)) ==
      if arg.Many? && |arg.items| == 1 then arg.items[0] else arg
  {
  }

  // ---------------------------------------------------------------------------
  // The quantizer

  datatype Kind = PerTensor | PerChannel(chAxis: int)

  /** The instance attributes that pickling keeps in its dictionary: all of them
      except the engines and the encoding. */
  datatype Config = Config(roundMode: string, quantScheme: QuantScheme, useSymmetricEncodings: bool,
                           useStrictSymmetric: bool, useUnsignedSymmetric: bool, bitwidth: nat,
                           enabled: bool, dataType: DataType, isEncodingFrozen: bool, kind: Kind)

  /** `PickableState`: the attribute dictionary, the encodings as tuples (absent when
      the quantizer had no encoding) and the number of engines. */
  datatype PickableState = PickableState(dict: Config, encodings: Option<seq<EncodingTuple>>, numChannels: nat)

  class StaticGridTensorQuantizer {
    var roundMode: string
    var quantScheme: QuantScheme
    var useSymmetricEncodings: bool
    var useStrictSymmetric: bool
    var useUnsignedSymmetric: bool
    var bitwidth: nat
    var enabled: bool
    var dataType: DataType
    var isEncodingFrozen: bool
    var kind: Kind
    /** `_cppOp`: one native engine per channel. */
    var cppOp: seq<Engine>
    /** `_encoding`: None or (normally) a list of encodings, one per engine. */
    var encoding: EncodingValue

    /** A per-tensor quantizer always holds None or a list. */
    ghost predicate Valid()
      reads this
    {
      kind.PerTensor? ==> !encoding.One?
    }

    function GetConfig(): (c: Config)
      reads this
      ensures c.enabled == enabled && c.isEncodingFrozen == isEncodingFrozen && c.quantScheme == quantScheme
    {
      Config(roundMode, quantScheme, useSymmetricEncodings, useStrictSymmetric, useUnsignedSymmetric,
             bitwidth, enabled, dataType, isEncodingFrozen, kind)
    }

    /** `StaticGridPerTensorQuantizer(...)`: one engine, no encoding, not frozen. */
    constructor PerTensorQuantizer(bitwidth: nat, roundMode: string, quantScheme: QuantScheme,
                                   useSymmetricEncodings: bool, enabledByDefault: bool, dataType: DataType)
      ensures Valid()
      ensures GetConfig() == Config(roundMode, quantScheme, useSymmetricEncodings, false, true, bitwidth,
                                    enabledByDefault, dataType, false, PerTensor)
      ensures cppOp == [NewEngine(quantScheme)] && encoding == NoEncoding
    {
      this.roundMode := roundMode;
      this.quantScheme := quantScheme;
      this.useSymmetricEncodings := useSymmetricEncodings;
      useStrictSymmetric := false;
      useUnsignedSymmetric := true;
      this.bitwidth := bitwidth;
      enabled := enabledByDefault;
      this.dataType := dataType;
      isEncodingFrozen := false;
      kind := PerTensor;
      cppOp := [NewEngine(quantScheme)];
      encoding := NoEncoding;
    }

    /** `StaticGridPerChannelQuantizer(...)`: one fresh engine per channel. */
    constructor PerChannelQuantizer(bitwidth: nat, roundMode: string, quantScheme: QuantScheme,
                                    useSymmetricEncodings: bool, numChannels: nat, enabledByDefault: bool,
                                    chAxis: int, dataType: DataType)
      ensures Valid()
      ensures GetConfig() == Config(roundMode, quantScheme, useSymmetricEncodings, false, true, bitwidth,
                                    enabledByDefault, dataType, false, PerChannel(chAxis))
      ensures |cppOp| == numChannels && (forall i :: 0 <= i < numChannels ==> cppOp[i] == NewEngine(quantScheme))
      ensures encoding == NoEncoding
    {
      this.roundMode := roundMode;
      this.quantScheme := quantScheme;
      this.useSymmetricEncodings := useSymmetricEncodings;
      useStrictSymmetric := false;
      useUnsignedSymmetric := true;
      this.bitwidth := bitwidth;
      enabled := enabledByDefault;
      this.dataType := dataType;
      isEncodingFrozen := false;
      kind := PerChannel(chAxis);
      cppOp := seq(numChannels, _ => NewEngine(quantScheme));
      encoding := NoEncoding;
    }

    /** The `encoding` getter: the first (only) encoding of a per-tensor quantizer,
        or None; the stored list itself for a per-channel quantizer. */
    function GetEncoding(): (v: EncodingValue)
      reads this
      requires Valid()
      ensures kind.PerChannel? ==> v == encoding
      ensures kind.PerTensor? ==> v == PerTensorView(encoding)
    {
      if kind.PerChannel? then encoding else PerTensorView(encoding)
    }

    /** The `encoding` setter: refused once frozen; otherwise a per-tensor quantizer
        stores `PerTensorStored(arg)` and a per-channel one stores `arg` unchanged. */
    method SetEncoding(arg: EncodingValue) returns (r: Outcome)
      requires Valid()
      modifies this`encoding
      ensures Valid()
      ensures isEncodingFrozen ==> r == Fail(RuntimeError(FrozenMsg)) && encoding == old(encoding)
      ensures !isEncodingFrozen && kind.PerTensor? ==> r == Done && encoding == PerTensorStored(arg)
      ensures !isEncodingFrozen && kind.PerChannel? ==> r == Done && encoding == arg
    {
      if isEncodingFrozen {
        return Fail(RuntimeError(FrozenMsg));
      }
      if kind.PerTensor? {
        encoding := PerTensorStored(arg);
      } else {
        encoding := arg;
      }
      r := Done;
    }

    /** The loop of `compute_encoding`: asks every engine in turn, keeping the valid
        encodings in engine order and noting whether any answer was invalid. */
    method EngineEncodings(getEncoding: GetEncodingFn) returns (encs: seq<Encoding>, allValid: bool)
      ensures var rs := EngineResults(cppOp, getEncoding, bitwidth, useSymmetricEncodings,
                                      useStrictSymmetric, useUnsignedSymmetric);
        encs == ValidEncodings(rs) && allValid == AllValid(rs)
    {
      ghost var rs := EngineResults(cppOp, getEncoding, bitwidth, useSymmetricEncodings,
                                    useStrictSymmetric, useUnsignedSymmetric);
      encs, allValid := [], true;
      var i := 0;
      while i < |cppOp|
        invariant 0 <= i <= |cppOp|
        invariant encs == ValidEncodings(rs[..i])
        invariant allValid == AllValid(rs[..i])
      {
        var res := getEncoding(cppOp[i], bitwidth, useSymmetricEncodings, useStrictSymmetric, useUnsignedSymmetric);
        ExtendResults(rs, i);
        if !res.1 {
          allValid := false;
        } else {
          encs := encs + [res.0];
        }
        i := i + 1;
      }
      assert rs[..i] == rs;
    }

    /** `compute_encoding`. Nothing happens when disabled or frozen. With the float
        data type the encoding becomes None. Otherwise every engine is asked in turn;
        the list keeps the valid encodings in engine order and any invalid answer
        disables the quantizer; a mix of valid and invalid answers is an assertion
        failure (raised after the state was written). */
    method ComputeEncoding(getEncoding: GetEncodingFn) returns (r: Outcome)
      requires Valid()
      modifies this`encoding, this`enabled
      ensures Valid()
      ensures !(old(enabled) && !isEncodingFrozen) ==>
        r == Done && encoding == old(encoding) && enabled == old(enabled)
      ensures old(enabled) && !isEncodingFrozen && dataType == Float ==>
        r == Done && encoding == NoEncoding && enabled
      ensures old(enabled) && !isEncodingFrozen && dataType == Int ==>
        var rs := EngineResults(cppOp, getEncoding, bitwidth, useSymmetricEncodings,
                                useStrictSymmetric, useUnsignedSymmetric);
        encoding == ListOf(ValidEncodings(rs)) && enabled == AllValid(rs) &&
        (r.Fail? <==> !AllValid(rs) && ValidEncodings(rs) != []) &&
        (r.Fail? ==> r.error == AssertionError("")) &&
        (r.Done? ==> AllOrNothingState(cppOp, rs, encoding, enabled))
    {
      if !(enabled && !isEncodingFrozen) {
        return Done;
      }
      if dataType == Float {
        encoding := NoEncoding;
        return Done;
      }
      var encs, allValid := EngineEncodings(getEncoding);
      enabled := allValid;
      encoding := ListOf(encs);
      if !enabled && encs != [] {
        return Fail(AssertionError(""));
      }
      ghost var rs := EngineResults(cppOp, getEncoding, bitwidth, useSymmetricEncodings,
                                    useStrictSymmetric, useUnsignedSymmetric);
      ComputeEncodingAllOrNothing(rs);
      assert AllOrNothingState(cppOp, rs, encoding, enabled);
      r := Done;
    }

    /** `update_encoding_stats` of a per-tensor quantizer: unless disabled or frozen,
        every engine is fed the whole tensor. */
    method UpdateEncodingStats(tensor: Sample)
      requires kind.PerTensor?
      modifies this`cppOp
      ensures !(enabled && !isEncodingFrozen) ==> cppOp == old(cppOp)
      ensures enabled && !isEncodingFrozen ==>
        |cppOp| == |old(cppOp)| && forall i :: 0 <= i < |cppOp| ==> cppOp[i] == Feed(old(cppOp)[i], tensor)
    {
      if enabled && !isEncodingFrozen {
        var i := 0;
        while i < |cppOp|
          invariant 0 <= i <= |cppOp| == |old(cppOp)|
          invariant forall j :: 0 <= j < i ==> cppOp[j] == Feed(old(cppOp)[j], tensor)
          invariant forall j :: i <= j < |cppOp| ==> cppOp[j] == old(cppOp)[j]
        {
          cppOp := cppOp[i := Feed(cppOp[i], tensor)];
          i := i + 1;
        }
      }
    }

    /** `update_encoding_stats` of a per-channel quantizer, given the tensor's slices
        along the channel axis: unless disabled or frozen, engine i is fed slice i and
        nothing else; a tensor with fewer channels than engines raises once the
        engines it does reach have been fed. */
    method UpdateEncodingStatsPerChannel(slices: seq<Sample>) returns (r: Outcome)
      requires kind.PerChannel?
      modifies this`cppOp
      ensures !(enabled && !isEncodingFrozen) ==> r == Done && cppOp == old(cppOp)
      ensures enabled && !isEncodingFrozen ==>
        |cppOp| == |old(cppOp)| &&
        (forall i :: 0 <= i < |cppOp| ==>
           cppOp[i] == if i < |slices| then Feed(old(cppOp)[i], slices[i]) else old(cppOp)[i]) &&
        (r.Fail? <==> |slices| < |cppOp|) && (r.Fail? ==> r.error == IndexError)
    {
      if !(enabled && !isEncodingFrozen) {
        return Done;
      }
      var i := 0;
      while i < |cppOp|
        invariant 0 <= i <= |cppOp| == |old(cppOp)|
        invariant i <= |slices|
        invariant forall j :: 0 <= j < i ==> cppOp[j] == Feed(old(cppOp)[j], slices[j])
        invariant forall j :: i <= j < |cppOp| ==> cppOp[j] == old(cppOp)[j]
      {
        if i >= |slices| {
          return Fail(IndexError);
        }
        cppOp := cppOp[i := Feed(cppOp[i], slices[i])];
        i := i + 1;
      }
      r := Done;
    }

    /** `reset_encoding_stats`: unless frozen, every engine forgets its statistics and
        the encoding becomes None. */
    method ResetEncodingStats()
      requires Valid()
      modifies this`cppOp, this`encoding
      ensures Valid()
      ensures isEncodingFrozen ==> cppOp == old(cppOp) && encoding == old(encoding)
      ensures !isEncodingFrozen ==>
        encoding == NoEncoding && |cppOp| == |old(cppOp)| &&
        forall i :: 0 <= i < |cppOp| ==> cppOp[i] == ClearStats(old(cppOp)[i])
    {
      if !isEncodingFrozen {
        var i := 0;
        while i < |cppOp|
          invariant 0 <= i <= |cppOp| == |old(cppOp)|
          invariant forall j :: 0 <= j < i ==> cppOp[j] == ClearStats(old(cppOp)[j])
          invariant forall j :: i <= j < |cppOp| ==> cppOp[j] == old(cppOp)[j]
        {
          cppOp := cppOp[i := ClearStats(cppOp[i])];
          i := i + 1;
        }
        encoding := NoEncoding;
      }
    }

    /** `get_stats_histogram`: only under TF-Enhanced and only once an encoding
        exists; then one histogram per engine, in engine order. */
    method GetStatsHistogram(histogram: Engine -> Histogram) returns (r: Result<seq<Histogram>>)
      ensures quantScheme != PostTrainingTfEnhanced ==> r == Err(RuntimeError(HistogramSchemeMsg))
      ensures quantScheme == PostTrainingTfEnhanced && !Truthy(encoding) ==>
        r == Err(RuntimeError(HistogramEncodingMsg))
      ensures quantScheme == PostTrainingTfEnhanced && Truthy(encoding) ==>
        r.Ok? && |r.value| == |cppOp| && forall i :: 0 <= i < |cppOp| ==> r.value[i] == histogram(cppOp[i])
    {
      if quantScheme != PostTrainingTfEnhanced {
        return Err(RuntimeError(HistogramSchemeMsg));
      }
      if !Truthy(encoding) {
        return Err(RuntimeError(HistogramEncodingMsg));
      }
      var hs: seq<Histogram> := [];
      var i := 0;
      while i < |cppOp|
        invariant 0 <= i <= |cppOp|
        invariant |hs| == i && forall j :: 0 <= j < i ==> hs[j] == histogram(cppOp[j])
      {
        hs := hs + [histogram(cppOp[i])];
        i := i + 1;
      }
      r := Ok(hs);
    }

    /** `freeze_encoding`: refused while there is no encoding (None or an empty
        list); otherwise the quantizer is frozen for good. */
    method FreezeEncoding() returns (r: Outcome)
      modifies this`isEncodingFrozen
      ensures !Truthy(encoding) ==>
        r == Fail(RuntimeError(FreezeWithoutEncodingMsg)) && isEncodingFrozen == old(isEncodingFrozen)
      ensures Truthy(encoding) ==> r == Done && isEncodingFrozen
    {
      if !Truthy(encoding) {
        return Fail(RuntimeError(FreezeWithoutEncodingMsg));
      }
      isEncodingFrozen := true;
      r := Done;
    }

    /** The `quant_scheme` setter: records the scheme, then replaces every engine by a
        fresh one of the new scheme (dropping all statistics); with no engine at all
        the assertion fails after the scheme was recorded. */
    method SetQuantScheme(scheme: QuantScheme) returns (r: Outcome)
      modifies this`quantScheme, this`cppOp
      ensures quantScheme == scheme
      ensures old(cppOp) == [] ==> r == Fail(AssertionError("")) && cppOp == []
      ensures old(cppOp) != [] ==>
        r == Done && |cppOp| == |old(cppOp)| && forall i :: 0 <= i < |cppOp| ==> cppOp[i] == NewEngine(scheme)
    {
      quantScheme := scheme;
      if cppOp == [] {
        return Fail(AssertionError(""));
      }
      cppOp := seq(|cppOp|, _ => NewEngine(scheme));
      r := Done;
    }

    /** `__getstate__`: the attributes, the encodings flattened to tuples in order
        (absent when the encoding is falsy) and the engine count. A truthy encoding
        that is not a list of encodings cannot be flattened. */
    method GetState() returns (r: Result<PickableState>)
      ensures !Truthy(encoding) ==> r == Ok(PickableState(GetConfig(), None, |cppOp|))
      ensures Truthy(encoding) && IsEncodingList(encoding) ==>
        r == Ok(PickableState(GetConfig(), Some(Tuples(Unwrap(encoding))), |cppOp|))
      ensures encoding.One? ==> r == Err(TypeError)
      ensures encoding.Many? && !IsEncodingList(encoding) ==> r == Err(AttributeError)
    {
      if !Truthy(encoding) {
        return Ok(PickableState(GetConfig(), None, |cppOp|));
      }
      if encoding.One? {
        return Err(TypeError);
      }
      var items := encoding.items;
      var ts: seq<EncodingTuple> := [];
      var i := 0;
      while i < |items|
        invariant 0 <= i <= |items|
        invariant forall j :: 0 <= j < i ==> items[j].One?
        invariant |ts| == i && forall j :: 0 <= j < i ==> ts[j] == ToTuple(items[j].enc)
      {
        if !items[i].One? {
          return Err(AttributeError);
        }
        ts := ts + [ToTuple(items[i].enc)];
        i := i + 1;
      }
      assert ts == Tuples(Unwrap(encoding));
      r := Ok(PickableState(GetConfig(), Some(ts), |cppOp|));
    }

    /** `__setstate__`: restores the attributes, creates `numChannels` fresh engines of
        the restored scheme, and rebuilds the encodings from their tuples in order
        (None when the state has none). */
    method SetState(state: PickableState)
      modifies this
      ensures Valid()
      ensures GetConfig() == state.dict
      ensures |cppOp| == state.numChannels
      ensures forall i :: 0 <= i < |cppOp| ==> cppOp[i] == NewEngine(state.dict.quantScheme)
      ensures encoding == if state.encodings.Some? then ListOf(Rebuild(state.encodings.value)) else NoEncoding
    {
      var Config(rm, scheme, sym, strict, unsignedSym, bw, en, dt, frozen, k) := state.dict;
      var ops := FreshEngines(scheme, state.numChannels);
      var restored := RestoreEncoding(state.encodings);
      roundMode, quantScheme, useSymmetricEncodings, useStrictSymmetric := rm, scheme, sym, strict;
      useUnsignedSymmetric, bitwidth, enabled, dataType := unsignedSym, bw, en, dt;
      isEncodingFrozen, kind, cppOp, encoding := frozen, k, ops, restored;
    }
  }

  /** The engines `__setstate__` creates: `count` fresh engines of the scheme. */
  method FreshEngines(scheme: QuantScheme, count: nat) returns (ops: seq<Engine>)
    ensures |ops| == count && forall j :: 0 <= j < count ==> ops[j] == NewEngine(scheme)
  {
    ops := [];
    var c := 0;
    while c < count
      invariant 0 <= c <= count
      invariant |ops| == c && forall j :: 0 <= j < c ==> ops[j] == NewEngine(scheme)
    {
      ops := ops + [NewEngine(scheme)];
      c := c + 1;
    }
  }

  /** The encoding `__setstate__` rebuilds: a list with one fresh TfEncoding per
      stored tuple, in order, or None when the state holds no encodings. */
  method RestoreEncoding(encodings: Option<seq<EncodingTuple>>) returns (v: EncodingValue)
    ensures v == if encodings.Some? then ListOf(Rebuild(encodings.value)) else NoEncoding
  {
    if encodings.None? {
      return NoEncoding;
    }
    var ts := encodings.value;
    var encs: seq<Encoding> := [];
    var i := 0;
    while i < |ts|
      invariant 0 <= i <= |ts|
      invariant |encs| == i && forall j :: 0 <= j < i ==> encs[j] == FromTuple(ts[j])
    {
      var t := ts[i];
      encs := encs + [FromTuple(t)];
      i := i + 1;
    }
    assert encs == Rebuild(ts);
    v := ListOf(encs);
  }

  /** Pickling `q` and unpickling into `copy` (the object unpickling allocates)
      reproduces every attribute, the number of engines and, in order and field for
      field, every encoding; only the engines' statistics start afresh. A falsy
      encoding comes back as None. */
  method PickleRoundTrip(q: StaticGridTensorQuantizer, copy: StaticGridTensorQuantizer) returns (r: Outcome)
    requires q != copy
    modifies copy
    ensures r.Done? <==> !Truthy(q.encoding) || IsEncodingList(q.encoding)
    ensures r.Done? ==>
      copy.GetConfig() == q.GetConfig() && |copy.cppOp| == |q.cppOp| &&
      (forall i :: 0 <= i < |copy.cppOp| ==> copy.cppOp[i] == NewEngine(q.quantScheme)) &&
      copy.encoding == if Truthy(q.encoding) then q.encoding else NoEncoding
  {
    var s := q.GetState();
    if s.Err? {
      return Fail(s.error);
    }
    copy.SetState(s.value);
    if Truthy(q.encoding) {
      RebuildTuples(Unwrap(q.encoding));
      ListOfUnwrap(q.encoding);
    }
    r := Done;
  }
}
