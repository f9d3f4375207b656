/** Option type and machine-integer arithmetic shared by the other modules. */
module Wrappers {

  datatype Option<+T> = None | Some(value: T)

  type byte = x: int | 0 <= x < 256

  const TWO_31: int := 0x8000_0000
  const TWO_32: int := 0x1_0000_0000
  const TWO_63: int := 0x8000_0000_0000_0000
  const TWO_64: int := 0x1_0000_0000_0000_0000

  /** `atomic.AddUint64(&x, n)`: addition wraps modulo 2^64. */
  function AddU64(x: nat, n: nat): nat {
    (x + n) % TWO_64
  }

  /** A counter that holds a total modulo 2^64 still does after the addition. */
  lemma AddWraps(total: nat, n: nat)
    ensures AddU64(total % TWO_64, n) == (total + n) % TWO_64
  {
  }

  lemma NoWrap(total: nat)
    requires total < TWO_64
    ensures total % TWO_64 == total
  {
  }

  /** The value an `int32` holds after arithmetic whose exact result is `x`. */
  function Wrap32(x: int): int {
    (x + TWO_31) % TWO_32 - TWO_31
  }

  lemma Wrap32Same(x: int)
    requires -TWO_31 <= x < TWO_31
    ensures Wrap32(x) == x
  {
  }
}
