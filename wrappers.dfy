/** Failure-carrying results, for the errors the constructs raise. */
module Wrappers {

  datatype Result<+T, +E> = Success(value: T) | Failure(error: E)
}
