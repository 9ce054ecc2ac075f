/** Small failure-carrying datatypes used to model the source's nullable
    values and its thrown exceptions. */
module Wrappers {

  /** A Kotlin nullable value: `None` is `null`. */
  datatype Option<+T> = None | Some(value: T)

  /** The result of a call that either returns a value or throws. */
  datatype Result<+R, +E> = Success(value: R) | Failure(error: E)

  /** The result of a call that returns `Unit` or throws. */
  datatype Outcome<+E> = Pass | Fail(error: E)
}
