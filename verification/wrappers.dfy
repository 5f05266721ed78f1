/** Go's nil pointers and (value, error) returns, as datatypes. */
module Wrappers {

  /** A Go pointer that may be nil. */
  datatype Option<+T> = None | Some(value: T)

  /** A Go `(value, error)` pair: exactly one of the two is meaningful. */
  datatype Result<+T, +E> = Success(value: T) | Failure(error: E)
}
