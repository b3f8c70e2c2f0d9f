/** Absent values and fallible results. */
module Wrappers {

  /** A value that may be missing: JavaScript's `null` and `undefined` both become `None`. */
  datatype Option<+T> = None | Some(value: T)

  /** The outcome of an operation that either yields a value or fails with an error. */
  datatype Result<+R, +E> = Success(value: R) | Failure(error: E)
}
