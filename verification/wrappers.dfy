/** Failure-compatible wrappers: `Option` for a value that may be absent
    (Python's `Optional`) and `Result` for an operation that may raise. */
module Wrappers {

  datatype Option<+T> = None | Some(value: T)

  datatype Result<+T, +E> = Success(value: T) | Failure(error: E)
}
