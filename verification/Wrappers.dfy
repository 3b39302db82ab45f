/** Option and Result, used for the values a collaborator may not supply and for
    the exceptions that abort a command. */
module Wrappers {

  /** A value that may be absent (Python's None). */
  datatype Option<+T> = None | Some(value: T)

  /** The outcome of a computation that either produces a value or raises. */
  datatype Result<+R, +E> = Ok(value: R) | Err(error: E)
}
