/** Failure-compatible wrappers used throughout the model. */
module Wrappers {

  /** An optional value; `None` stands for Python's `None`. */
  datatype Option<+T> = None | Some(value: T)

  /** A value or the reason the operation stopped. */
  datatype Result<+R, +E> = Success(value: R) | Failure(error: E)

  /** Normal completion, or a failure carrying its reason. */
  datatype Outcome<+E> = Pass | Fail(error: E)
}
