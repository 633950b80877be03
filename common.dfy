/** Python-level failures and the Option/Result wrappers the rest of the model uses.
    Every `raise` and every failing `assert` of the quantizers becomes an `Err` value
    carrying the exception kind and, where the source gives one, its message. */
module Common {

  datatype Option<+T> = None | Some(value: T)

  /** The exception kinds the quantizers raise, directly or through a failing
      subscript, attribute access or foreign call. */
  datatype PyError =
    | RuntimeError(msg: string)
    | ValueError(msg: string)
    | AssertionError(msg: string)
    | IndexError
    | KeyError
    | TypeError
    | AttributeError

  datatype Result<+T> = Ok(value: T) | Err(error: PyError)

  /** The outcome of an operation that returns nothing when it succeeds. */
  datatype Outcome = Done | Fail(error: PyError)

  /** 2 to the power k, the number of codes of a k-bit unsigned integer. */
  function Pow2(k: nat): (r: nat)
    ensures r >= 1
  {
    if k == 0 then 1 else 2 * Pow2(k - 1)
  }

  lemma {:induction false} Pow2Add(a: nat, b: nat)
    ensures Pow2(a + b) == Pow2(a) * Pow2(b)
    decreases a
  {
    if a > 0 {
      Pow2Add(a - 1, b);
    }
  }

  lemma Pow2Of31()
    ensures Pow2(31) == 2147483648
  {
    assert Pow2(8) == 256;
    assert Pow2(7) == 128;
    Pow2Add(8, 8);
    Pow2Add(8, 7);
    Pow2Add(16, 15);
  }

  lemma {:induction false} Pow2Monotone(j: nat, k: nat)
    requires j <= k
    ensures Pow2(j) <= Pow2(k)
    decreases k
  {
    if j < k {
      Pow2Monotone(j, k - 1);
    }
  }
}
