/** What the other modules share: the failure-compatible datatypes, octets, the range of a 64-bit counter and the first numbers. */
module Wrappers {

  type byte = x: int | 0 <= x < 0x100
  type bytes = seq<byte>

  const TWO_64: nat := 0x1_0000_0000_0000_0000

  /** 0, 1, …, n - 1. */
  function Upto(n: nat): seq<nat> {
    if n == 0 then [] else Upto(n - 1) + [n - 1]
  }

  datatype Option<+T> = None | Some(value: T)

  datatype Result<+T, +E> = Ok(value: T) | Err(error: E) {

    predicate IsFailure() {
      Err?
    }

    function PropagateFailure<U>(): Result<U, E>
      requires Err?
    {
      Err(error)
    }

    function Extract(): T
      requires Ok?
    {
      value
    }
  }
}
