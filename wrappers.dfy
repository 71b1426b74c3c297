/** Option and Result, used where the source returns null or throws. */
module Wrappers {

  /** A value that may be absent (`T | null` in the source). */
  datatype Option<+T> = None | Some(value: T)

  /** The outcome of an operation that may throw: `Ok` or the error it raised. */
  datatype Result<+T, +E> = Ok(value: T) | Err(error: E)
}
