/** Option and Result wrappers, and the two kinds of value a JavaScript `throw` can carry. */
module Base {

  datatype Option<+T> = None | Some(value: T)

  /** What a `throw` hands to a `catch`: an `Error` instance with its message, or any other value. */
  datatype Thrown = ErrorObject(message: string) | NonError

  datatype Result<+T> = Ok(value: T) | Err(thrown: Thrown)

  /** The error `processProp` throws for a call with more than one argument. */
  const DecoratorArgumentError: Thrown := ErrorObject("Decorator can only contain one argument")
}
