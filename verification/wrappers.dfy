/** Optional values and results with a typed failure, shared by the modules of the model. */
module Wrappers {

  /** A value that may be absent; stands for a Java reference that may be null. */
  datatype Option<+T> = None | Some(value: T)

  /** The outcome of a query: a value, or the failure the service reports instead. */
  datatype Result<+T, +E> = Success(value: T) | Failure(error: E)
}
