/** Failure-compatible wrappers and the Python exceptions the modelled code raises. */
module Wrappers {

  /** The exception classes raised by the modelled code, with their messages where they
      distinguish one failure from another. */
  datatype Error =
    | TypeError(msg: string)
    | ValueError(msg: string)
    | IndexError(msg: string)
    | KeyError(key: string)
    | AttributeError(msg: string)
    | NotImplementedError(msg: string)
    | ZeroDivisionError

  /** Python's None or a present value. */
  datatype Option<+T> = None | Some(value: T) {
    function GetOr(default: T): T {
      match this
      case Some(v) => v
      case None => default
    }
  }

  /** The value an operation returns, or the exception it raises. */
  datatype Result<+T> = Success(value: T) | Failure(error: Error) {
    predicate IsFailure() {
      Failure?
    }

    function PropagateFailure<U>(): Result<U>
      requires Failure?
    {
      Failure(error)
    }

    function Extract(): T
      requires Success?
    {
      value
    }
  }

  /** The outcome of an operation that returns nothing. */
  datatype Outcome = Pass | Fail(error: Error) {
    predicate IsFailure() {
      Fail?
    }

    function PropagateFailure<U>(): Result<U>
      requires Fail?
    {
      Failure(error)
    }
  }
}
