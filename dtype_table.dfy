/** The fixed table that chooses the integer type in which the learned-grid forward
    pass saves its clamped codes for the backward pass, keyed by
    (bitwidth, symmetric, unsigned-symmetric), with int32 for every other key. */
module DtypeTable {
  import opened Common

  datatype Dtype = UInt8 | Int8 | Int16 | Int32

  /** The key of the table: `_EncodingParams`. */
  datatype EncodingParams = EncodingParams(bitwidth: nat, isSymmetric: bool, useUnsignedSymmetric: bool)

  /** The table as the source writes it. */
  const TableAsWritten: map<EncodingParams, Dtype> := map[
    EncodingParams(8, true, true) := UInt8,
    EncodingParams(8, true, false) := Int8,
    EncodingParams(8, false, true) := UInt8,
    EncodingParams(8, false, false) := UInt8,
    EncodingParams(16, true, false) := Int16
  ]

  /** The dict lookup `.get(key, torch.int32)` over the table as written. The
      ensures clauses describe the table entry by entry, independently of the map. */
  function DtypeForClampOutAsWritten(k: EncodingParams): (d: Dtype)
    ensures d == Int8 <==> k.bitwidth == 8 && k.isSymmetric && !k.useUnsignedSymmetric
    ensures d == UInt8 <==> k.bitwidth == 8 && (!k.isSymmetric || k.useUnsignedSymmetric)
    ensures d == Int16 <==> k.bitwidth == 16 && k.isSymmetric && !k.useUnsignedSymmetric
    ensures d == Int32 <==> k !in TableAsWritten
  {
    if k in TableAsWritten then TableAsWritten[k] else Int32
  }

  /** The table with its two signed entries replaced: an 8-bit key always saves as
      uint8, and the 16-bit signed key falls back to int32 like every other key. */
  const Table: map<EncodingParams, Dtype> := map[
    EncodingParams(8, true, true) := UInt8,
    EncodingParams(8, true, false) := UInt8,
    EncodingParams(8, false, true) := UInt8,
    EncodingParams(8, false, false) := UInt8
  ]

  function DtypeForClampOut(k: EncodingParams): (d: Dtype)
    ensures d == UInt8 <==> k.bitwidth == 8
    ensures d == Int32 <==> k.bitwidth != 8
  {
    if k in Table then Table[k] else Int32
  }

  function Lowest(d: Dtype): (lo: int)
  {
    match d
    case UInt8 => 0
    case Int8 => -128
    case Int16 => -32768
    case Int32 => -2147483648
  }

  function Highest(d: Dtype): (hi: int)
  {
    match d
    case UInt8 => 255
    case Int8 => 127
    case Int16 => 32767
    case Int32 => 2147483647
  }

  predicate Representable(d: Dtype, v: int)
  {
    Lowest(d) <= v <= Highest(d)
  }

  /** `.to(dtype=d)` of one integral value: the value itself when `d` can hold it;
      otherwise the conversion does not define the result (None). */
  function Saved(d: Dtype, v: int): (r: Option<int>)
    ensures r == Some(v) <==> Representable(d, v)
    ensures r.Some? ==> r.value == v
  {
    if Representable(d, v) then Some(v) else None
  }

  /** With the corrected table, every code an unsigned grid of at most 31 bits can
      produce is saved exactly. */
  lemma {:induction false} CorrectedTableHoldsCodes(k: EncodingParams, v: int)
    requires k.bitwidth <= 31
    requires 0 <= v < Pow2(k.bitwidth)
    ensures Representable(DtypeForClampOut(k), v)
  {
    if k.bitwidth == 8 {
      assert Pow2(8) == 256;
    } else {
      Pow2Monotone(k.bitwidth, 31);
      Pow2Of31();
    }
  }
}
