/** Failure-compatible wrappers used throughout the model: an optional value,
    a value-or-error result, and a pass-or-error outcome for checks that
    produce no value. */
module Wrappers {

  datatype Option<+T> = None | Some(value: T)

  datatype Result<+R, +E> = Success(value: R) | Failure(error: E) {
    /** Forgets the error, keeping only whether a value was produced. */
    function ToOption(): Option<R> {
      match this
      case Success(v) => Some(v)
      case Failure(_) => None
    }
  }

  datatype Outcome<+E> = Pass | Fail(error: E)
}
