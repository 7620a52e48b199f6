/**
 * Result and Option values that stand for Go's `(value, error)` returns, and
 * the byte strings that images travel as.
 */
module Basics {

  datatype Option<+T> = None | Some(value: T)

  datatype Result<+T, +E> = Ok(value: T) | Err(error: E)

  /** A Go `[]byte`. */
  type Bytes = seq<bv8>

  function Min(a: int, b: int): int { if a <= b then a else b }

  function Max(a: int, b: int): int { if a >= b then a else b }
}
