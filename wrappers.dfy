/** Failure-compatible result types used by the whole model: `Option` for a
    lookup that may find nothing (Java's `null`), `Result` and `Outcome` for
    an operation that may end in an exception. */
module Wrappers {

  datatype Option<+T> = None | Some(value: T)

  datatype Result<+R, +E> = Success(value: R) | Failure(error: E)

  datatype Outcome<+E> = Pass | Fail(error: E)
}
