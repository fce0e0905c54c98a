/** The outcome of a fallible operation: a value, or the error that prevented it. */
module Wrappers {

  datatype Result<+T, +E> = Success(value: T) | Failure(error: E)
}
