/** Failure-carrying results, standing for the exceptions the Python code raises. */
module Wrappers {

  /** The value of a call that either returns `value` or raises `error`. */
  datatype Result<+T, +Err> = Success(value: T) | Failure(error: Err)

  /** The outcome of a call that returns nothing useful or raises `error`. */
  datatype Outcome<+Err> = Pass | Fail(error: Err)
}
