/** Small shared vocabulary: optional values, results and machine-word arithmetic. */
module Basics {
  datatype Option<+T> = None | Some(value: T)

  datatype Result<+T, +E> = Ok(value: T) | Err(error: E)

  type Token = nat
  type Id = nat

  /** The largest `usize` of a 64-bit target. */
  const USIZE_MAX: nat := 0xFFFF_FFFF_FFFF_FFFF

  function Min(a: nat, b: nat): nat { if a <= b then a else b }

  function Max(a: nat, b: nat): nat { if a >= b then a else b }

  /** `usize::checked_add`. */
  function CheckedAdd(a: nat, b: nat): Option<nat> {
    if a + b <= USIZE_MAX then Some(a + b) else None
  }

  /** `usize::saturating_add`. */
  function SaturatingAdd(a: nat, b: nat): nat { Min(a + b, USIZE_MAX) }

  /** `usize::saturating_sub`. */
  function SaturatingSub(a: nat, b: nat): nat { if a >= b then a - b else 0 }

  type Byte = b: nat | b < 256

  lemma Regroup<T>(a: seq<T>, b: seq<T>, c: seq<T>)
    ensures a + b + c == a + (b + c)
  {
  }
}
