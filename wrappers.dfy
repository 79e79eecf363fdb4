/** Option, Result and Outcome wrappers used across the model: a C# reference that may be
    null is an `Option`, an operation that may throw is a `Result` or an `Outcome`. */
module Wrappers {

  /** A possibly-null reference: `None` stands for C#'s `null`. */
  datatype Option<+T> = None | Some(value: T)

  /** A value, or the exception that was thrown instead. */
  datatype Result<+R, +E> = Success(value: R) | Failure(error: E)

  /** Completion of a call that returns nothing of interest, or its exception. */
  datatype Outcome<+E> = Pass | Fail(error: E)
}
