/** Values that stand in for Python's None and for the exceptions the source raises. */
module Wrappers {

  /** A value that may be absent (Python's None). */
  datatype Option<+T> = None | Some(value: T)

  /** A computation that either produced a value or raised an error with a message. */
  datatype Result<+T> = Success(value: T) | Failure(error: string)
}
