/** Optional values and results with an error, as the Go code's `*T` and `(T, error)` pairs. */
module Wrappers {

  datatype Option<+T> = None | Some(value: T)

  datatype Result<+T, +E> = Success(value: T) | Failure(error: E)

  /** The result of an operation that returns only an error. */
  datatype Outcome<+E> = Pass | Fail(error: E)
}
