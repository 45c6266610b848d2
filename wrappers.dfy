/** The two failure shapes used throughout the model: a Go pointer that may be nil
    (Option) and a Go `(value, error)` pair (Result). */
module Wrappers {

  /** A possibly absent value; `None` stands for a nil pointer. */
  datatype Option<+T> = None | Some(value: T)

  /** A Go call's `(value, err)` pair: exactly one of the two is meaningful. */
  datatype Result<+T, +E> = Success(value: T) | Failure(error: E)
}
