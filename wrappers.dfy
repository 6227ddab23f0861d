/** Failure-compatible result types shared by the engine's modules. */
module Wrappers {

  /** A value that may be absent: Python's `None` or a value. */
  datatype Option<+T> = None | Some(value: T)

  /** The outcome of an operation that raises instead of returning. */
  datatype Result<+T, +E> = Ok(value: T) | Err(error: E)
}
