/** Failure-compatible result types used for Swift's `throws` and optionals. */
module Wrappers {

  /** A Swift optional: `nil` or a wrapped value. */
  datatype Option<+T> = None | Some(value: T)

  /** The outcome of a throwing call that produces a value. */
  datatype Result<+R, +E> = Success(value: R) | Failure(error: E)

  /** The outcome of a throwing call that produces no value. */
  datatype Outcome<+E> = Pass | Fail(error: E)
}
