/** Option and Result: a missing reference (C# null) and an operation that
    either returns a value or throws an exception with a message. */
module Wrappers {

  datatype Option<+T> = None | Some(value: T) {
    function GetOr(default: T): T {
      match this
      case Some(v) => v
      case None => default
    }
  }

  /** The outcome of a step that the source may abort with an exception;
      the error is the exception's message. */
  datatype Result<+T> = Success(value: T) | Failure(error: string)

  /** The message of the NullReferenceException a null dereference throws. */
  const NullReferenceMessage: string := "Object reference not set to an instance of an object."
}
