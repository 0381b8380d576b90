/** The exceptions the core throws, as values. */
module Failures {

  /** The two standard exception types thrown by the core. */
  datatype Error =
    | InvalidArgument   // std::invalid_argument: a negative standard deviation
    | RuntimeError      // std::runtime_error: unknown id, division by zero, non-positive base

  /** The outcome of an operation that returns a value or throws. */
  datatype Result<+T> = Success(value: T) | Failure(error: Error)

  /** The outcome of an operation that returns nothing or throws. */
  datatype Outcome = Pass | Fail(error: Error)
}
