/** Small value types shared by the other modules. */
module Basics {

  /** A value that may be absent: Python's `None` or a string. */
  datatype Option<T> = None | Some(value: T)

  /** The outcome of a step that may raise: its value, or the message of the exception. */
  datatype Result<T> = Success(value: T) | Failure(message: string)
}
