/** Failure-compatible wrappers used across the model. */
module Wrappers {

  /** An optional value; `None` stands for JavaScript's `null`/`undefined` (or any falsy value where the source tests truthiness). */
  datatype Option<+T> = None | Some(value: T) {
    /** The wrapped value, or `default` when absent (the source's `x || default`). */
    function GetOr(default: T): T {
      if Some? then value else default
    }
  }

  /** A value or the exception the source would throw instead. */
  datatype Result<+R, +E> = Success(value: R) | Failure(error: E)

  /** Completion of an operation that returns nothing, or the exception it throws. */
  datatype Outcome<+E> = Pass | Fail(error: E)
}
