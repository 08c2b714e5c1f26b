/** Result type for the error path of the endpoint. */
module Wrappers {

  /** Either the value a step produced or the error that aborted it. */
  datatype Result<+T, +E> = Success(value: T) | Failure(error: E)
}
