/** The encoding value (the native TfEncoding record), the shapes a Python caller
    may hand to an `encoding` setter, and the flat tuple form used when a quantizer
    is pickled. */
module Encodings {

  /** The quantization schemes a quantizer can be configured with. */
  datatype QuantScheme =
    | PostTrainingTf
    | PostTrainingTfEnhanced
    | TrainingRangeLearningWithTfInit
    | TrainingRangeLearningWithTfEnhancedInit
    | PostTrainingPercentile

  /** `QuantizationDataType`: integer grid or reduced-precision float. */
  datatype DataType = Int | Float

  /** The messages every quantizer raises when its encoding is set while frozen,
      and when it is frozen without an encoding. */
  const FrozenMsg := "Encoding can be set only when it is not frozen."
  const FreezeWithoutEncodingMsg := "Encoding can be frozen only when it is not None."

  /** The values of a tensor, flattened in row-major order. */
  type Sample = seq<real>

  /** {min, max, delta, offset, bw}: an affine integer quantization grid.
      The real-valued fields are carried unchanged by everything modelled here. */
  datatype Encoding = Encoding(min: real, max: real, delta: real, offset: real, bw: nat)

  /** What the `encoding` attribute can hold in Python: None, one TfEncoding, or a
      list whose items are again any of these (the per-tensor setter wraps whatever
      it is given, so `[None]` and a nested list are reachable). */
  datatype EncodingValue =
    | NoEncoding
    | One(enc: Encoding)
    | Many(items: seq<EncodingValue>)

  /** Python truthiness of the attribute: None and the empty list are false,
      a TfEncoding object and a non-empty list are true. */
  predicate Truthy(v: EncodingValue)
  {
    match v
    case NoEncoding => false
    case One(_) => true
    case Many(items) => |items| > 0
  }

  /** A list every item of which is a TfEncoding. */
  predicate IsEncodingList(v: EncodingValue)
  {
    v.Many? && forall i :: 0 <= i < |v.items| ==> v.items[i].One?
  }

  /** The Python list `[e0, e1, ...]` of the given encodings. */
  function ListOf(encs: seq<Encoding>): (v: EncodingValue)
    ensures IsEncodingList(v) && |v.items| == |encs|
    ensures forall i :: 0 <= i < |encs| ==> v.items[i] == One(encs[i])
  {
    Many(seq(|encs|, i requires 0 <= i < |encs| => One(encs[i])))
  }

  /** The encodings held by a list of TfEncodings, in list order. */
  function Unwrap(v: EncodingValue): (encs: seq<Encoding>)
    requires IsEncodingList(v)
    ensures |encs| == |v.items|
    ensures forall i :: 0 <= i < |encs| ==> v.items[i] == One(encs[i])
  {
    seq(|v.items|, i requires 0 <= i < |v.items| => v.items[i].enc)
  }

  lemma ListOfUnwrap(v: EncodingValue)
    requires IsEncodingList(v)
    ensures ListOf(Unwrap(v)) == v
  {
    assert ListOf(Unwrap(v)).items == v.items;
  }

  /** The pickled form of one encoding: (min, max, delta, offset, bw). */
  type EncodingTuple = (real, real, real, real, nat)

  function ToTuple(e: Encoding): (t: EncodingTuple)
  {
    (e.min, e.max, e.delta, e.offset, e.bw)
  }

  /** A fresh TfEncoding whose fields are read back from a pickled tuple. */
  function FromTuple(t: EncodingTuple): (e: Encoding)
  {
    Encoding(t.0, t.1, t.2, t.3, t.4)
  }

  /** The tuples `PickableState` stores for a list of encodings, in list order. */
  function Tuples(encs: seq<Encoding>): (ts: seq<EncodingTuple>)
    ensures |ts| == |encs|
  {
    seq(|encs|, i requires 0 <= i < |encs| => ToTuple(encs[i]))
  }

  /** The encodings `__setstate__` rebuilds from stored tuples, in tuple order. */
  function Rebuild(ts: seq<EncodingTuple>): (encs: seq<Encoding>)
    ensures |encs| == |ts|
  {
    seq(|ts|, i requires 0 <= i < |ts| => FromTuple(ts[i]))
  }

  /** Pickling loses nothing: every field of every encoding, in order, comes back. */
  lemma RebuildTuples(encs: seq<Encoding>)
    ensures Rebuild(Tuples(encs)) == encs
  {
    forall i | 0 <= i < |encs|
      ensures Rebuild(Tuples(encs))[i] == encs[i]
    {
      var e := encs[i];
      assert FromTuple(ToTuple(e)) == Encoding(e.min, e.max, e.delta, e.offset, e.bw);
    }
  }
}
