/** Option and Result: absent values and error returns of the conversion handlers. */
module Wrappers {

  /** A value that may be absent, like an optional field of a parsed YAML record. */
  datatype Option<+T> = None | Some(value: T)

  /** The outcome of a handler: a response payload or one of its error answers. */
  datatype Result<+R, +E> = Success(value: R) | Failure(error: E)
}
