/** Option, Result and the Python exceptions the pipeline core raises. */
module Wrappers {

  datatype Option<+T> = None | Some(value: T)

  /** The exception classes raised by the modelled code (message texts are abbreviated). */
  datatype Error =
    | ValueError(message: string)
    | TypeError(message: string)
    | AttributeError(attribute: string)
    | IndexError
    | ZeroDivisionError
    | RuntimeError(message: string)
    | ValidationError(message: string)
    | NotImplementedError

  /** A computation that either returns a value or raises an exception. */
  datatype Result<+T> = Success(value: T) | Failure(error: Error) {
    predicate IsFailure() {
      Failure?
    }

    function PropagateFailure<U>(): Result<U>
      requires Failure?
    {
      Failure(error)
    }

    function Extract(): T
      requires Success?
    {
      value
    }
  }
}
