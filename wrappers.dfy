/** Failure-compatible wrappers: JavaScript's `null` and thrown exceptions made explicit. */
module Wrappers {

  /** `None` stands for JavaScript's `null` (or `undefined`). */
  datatype Option<+T> = None | Some(value: T)

  /** A value, or the exception that the JavaScript code would throw instead. */
  datatype Result<+R, +E> = Success(value: R) | Failure(error: E)

  /** The outcome of a call that returns nothing but may throw. */
  datatype Outcome<+E> = Pass | Fail(error: E)
}
