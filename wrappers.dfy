/** Result type used for the error paths of the analysis functions. */
module Wrappers {

  datatype Result<+T, +E> = Success(value: T) | Failure(error: E)
}
