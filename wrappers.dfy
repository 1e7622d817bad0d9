/** Option and Result: Go's nil pointers/maps and its `(value, error)` returns. */
module Wrappers {

  /** `None` stands for Go's nil. */
  datatype Option<+T> = None | Some(value: T)

  /** A Go `(value, error)` pair where exactly one side is meaningful. */
  datatype Result<+R, +E> = Success(value: R) | Failure(error: E)
}
