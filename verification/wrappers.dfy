/** Failure-carrying results shared by every module of the model. */
module Wrappers {

  /** A value that may be absent: a lookup that finds nothing, or a call that raises. */
  datatype Option<+T> = None | Some(value: T)

  /** A value, or the kind of exception the modelled code raises. */
  datatype Result<+T, +E> = Success(value: T) | Failure(error: E)
}
