/** Failure-compatible wrappers used throughout the model: `Option` for Go's
    nil-able values and `Result` for Go's `(value, error)` return pairs. */
module Wrappers {

  /** A value that may be absent: `None` stands for Go's `nil`. */
  datatype Option<+T> = None | Some(value: T)

  /** Either a value or an error; never both, so no partial value can escape
      an error path. */
  datatype Result<+T, +E> = Success(value: T) | Failure(error: E) {

    predicate IsFailure() {
      Failure?
    }

    function PropagateFailure<U>(): Result<U, E>
      requires Failure?
    {
      Failure(error)
    }

    function Extract(): T
      requires Success?
    {
      value
    }
  }
}
