/** Optional values and failure-as-data results shared by the model's modules. */
module Wrappers {

  /** A value that may be absent, as Python's `None`. */
  datatype Option<+T> = None | Some(value: T)

  /** The outcome of an operation that may raise: a value, or the name of the exception. */
  datatype Result<+R> = Success(value: R) | Failure(error: string)
}
