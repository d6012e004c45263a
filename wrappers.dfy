/** The optional value and the success-or-error value that the components' nullable state and early returns become. */
module Wrappers {

  datatype Option<+T> = None | Some(value: T)

  datatype Result<+T, +E> = Success(value: T) | Failure(error: E)
}
