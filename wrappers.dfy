/** Wrappers: an optional value, and a value-or-error. */
module Wrappers {

  /** A value that may be absent; stands for a Java reference that may be null. */
  datatype Option<+T> = None | Some(value: T)

  /** Either a value or the error that was raised instead of producing one. */
  datatype Result<+R, +E> = Success(value: R) | Failure(error: E)
}
