/** Option and Result values that stand for Java's nullable references and thrown exceptions. */
module Wrappers {

  datatype Option<T> = None | Some(value: T)
  {
    predicate IsSome() { Some? }

    function GetOr(default: T): (r: T)
      ensures Some? ==> r == value
      ensures None? ==> r == default
    {
      match this
      case Some(v) => v
      case None => default
    }
  }

  /** The Java exception classes the modelled code throws, each with its message. */
  datatype Failure =
    | InvalidRequest(message: string)
    | Unexpected(message: string)
    | InvalidArguments(message: string)
    | InvalidArtifactServer(message: string)
    | Unauthorized(message: string)
    | ContainerStepExecution(message: string)
    | ArtifactServer(cause: Failure)
    | Hinted(hint: string, explanation: string, cause: Failure)
    | UnsupportedOperation
    | IllegalState
    | IndexOutOfBounds
    | NullPointer

  datatype Result<T> = Ok(value: T) | Err(error: Failure)
  {
    predicate IsOk() { Ok? }
  }
}
