/** The failure-compatible results and the machine integers every model shares. */
module Wrappers {

  datatype Option<+T> = None | Some(value: T) {
    predicate IsFailure() {
      None?
    }

    function PropagateFailure<U>(): Option<U>
      requires None?
    {
      None
    }

    function Extract(): T
      requires Some?
    {
      value
    }

    function UnwrapOr(default: T): T {
      match this
      case Some(v) => v
      case None => default
    }
  }

  datatype Result<+T, +E> = Ok(value: T) | Err(error: E) {
    predicate IsFailure() {
      Err?
    }

    function PropagateFailure<U>(): Result<U, E>
      requires Err?
    {
      Err(error)
    }

    function Extract(): T
      requires Ok?
    {
      value
    }
  }

  /** The value of a Rust call that returns nothing but may fail. */
  datatype Unit = Unit

  const U64_MAX: int := 0xFFFF_FFFF_FFFF_FFFF
  const I64_MAX: int := 0x7FFF_FFFF_FFFF_FFFF
  const U32_MAX: int := 0xFFFF_FFFF

  type u64 = x: int | 0 <= x <= U64_MAX

  function SaturatingSub(a: u64, b: u64): u64 {
    if a < b then 0 else a - b
  }

  function SaturatingAdd(a: u64, b: u64): u64 {
    if a + b > U64_MAX then U64_MAX else a + b
  }

  function SaturatingMul(a: u64, b: u64): u64 {
    if a * b > U64_MAX then U64_MAX else if a * b < 0 then 0 else a * b
  }

  function CheckedAdd(a: u64, b: u64): Option<u64> {
    if a + b > U64_MAX then None else Some(a + b)
  }

  function Min(a: u64, b: u64): u64 {
    if a < b then a else b
  }
}
