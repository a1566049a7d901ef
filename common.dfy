/** Values shared by every part of the model: nullable values, the exceptions
    the code throws, and the result of an operation that may throw. */
module Common {

  /** A C# reference that may be null. */
  datatype Option<+T> = None | Some(value: T)

  /** MediatR's `Unit`, the value a command handler returns. */
  datatype Unit = Unit

  /** The exceptions the modelled code throws. An `ArgumentNullException`
      carries only the name of the null argument; its message is the
      framework's. */
  datatype Exception =
    | ArgumentNullException(argument: string)
    | ArgumentException(message: string, paramName: Option<string>)
    | InvalidOperationException(message: string)

  /** The outcome of an operation that either returns a value or throws. */
  datatype Result<+T> = Success(value: T) | Failure(error: Exception)

  /** The message of the exception `Single` throws when no element
      matches. */
  const NoMatch: string := "Sequence contains no matching element"

  /** The message of the exception `Single` and `SingleOrDefault` throw when
      more than one element matches. */
  const MoreThanOneMatch: string := "Sequence contains more than one matching element"
}
