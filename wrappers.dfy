/** Failure-carrying wrappers used in place of the source's null pointers and exceptions. */
module Wrappers {

  /** An optional value: a nullable pointer, an empty `std::any`, a Java `null`. */
  datatype Option<+T> = None | Some(value: T)

  /** The outcome of an operation that may throw: its value, or the error it raised. */
  datatype Result<+T, +E> = Success(value: T) | Failure(error: E)
}
