/** Option and Result values, and the exceptions of the modelled Python code. */
module Wrappers {

  datatype Option<+T> = None | Some(value: T) {
    function GetOr(default: T): T {
      match this
      case Some(v) => v
      case None => default
    }
  }

  /** The Python exception classes the modelled code raises or catches. */
  datatype Error =
    | ValueError(reason: string)
    | TypeError(reason: string)
    | KeyError(key: string)
    | IndexError
    | AttributeError(name: string)
    | RuntimeError(reason: string)
    | HttpStatusError(status: int)
    /** The RuntimeError `f"API Error: {status}"` raised by the upstream client. */
    | ApiError(status: int)
    | TransportError

  /** A value, or the exception that was raised instead of returning one. */
  datatype Result<+T> = Ok(value: T) | Err(error: Error) {
    predicate IsFailure() { Err? }
    function PropagateFailure<U>(): Result<U>
      requires Err?
    {
      Err(error)
    }
    function Extract(): T
      requires Ok?
    {
      value
    }
  }

  /** Success or the exception raised by a call that returns nothing. */
  datatype Outcome = Done | Raised(error: Error) {
    predicate IsFailure() { Raised? }
    function PropagateFailure(): Outcome
      requires Raised?
    {
      this
    }
  }
}
