/** Optional values and results with an error arm, shared by the other modules. */
module Wrappers {

  /** A value that may be absent (a JSON key that was never set, Python's `None`). */
  datatype Option<+T> = None | Some(value: T)

  /** The outcome of an operation that can fail with an error of type `E`. */
  datatype Result<+T, +E> = Success(value: T) | Failure(error: E)
}
