/** Failure-carrying results, used for the service's HTTP error paths and for optional request fields. */
module Wrappers {

  datatype Option<+T> = None | Some(value: T)

  datatype Result<+R, +E> = Success(value: R) | Failure(error: E)
}
