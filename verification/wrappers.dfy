/** Failure-carrying values shared by the scoring modules. */
module Wrappers {

  /** A value that may be missing: a nullable column, an optional field or a lookup that found nothing. */
  datatype Option<+T> = None | Some(value: T)

  /** The outcome of an operation that either produces a value or fails with an error. */
  datatype Result<+R, +E> = Success(value: R) | Failure(error: E)
}
