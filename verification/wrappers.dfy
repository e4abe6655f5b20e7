/** Optional values and error outcomes shared by the quoting engine. */
module Wrappers {

  /** A value that may be absent; stands for Python's `None`. */
  datatype Option<+T> = None | Some(value: T)

  /** The outcome of a step that can raise: a value, or the error that stops the batch. */
  datatype Result<+R, +E> = Success(value: R) | Failure(error: E)
}
