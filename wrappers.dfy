/** Failure-carrying values used in place of JavaScript's `null`, `undefined` and `throw`. */
module Wrappers {

  /** `None` stands for JavaScript's `null` (or the empty string returned by `charAt` past the end). */
  datatype Option<+T> = None | Some(value: T)

  /** A computation that either yields a value or fails with an error. */
  datatype Result<+R, +E> = Success(value: R) | Failure(error: E)

  /** A computation that yields nothing but may fail. */
  datatype Outcome<+E> = Pass | Fail(error: E)
}
