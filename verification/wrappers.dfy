/** Failure-carrying results shared by every module of the keyring model.
    A JavaScript `throw` becomes a `Failure` value; the kinds are the error
    classes the snap code throws or lets the runtime throw. */
module Wrappers {

  datatype Option<+T> = None | Some(value: T) {
    function GetOr(default: T): T {
      match this
      case Some(v) => v
      case None => default
    }
  }

  /** What a call can fail with. */
  datatype Failure =
    | Error(message: string)               // `new Error(message)`
    | TypeError(message: string)           // `new TypeError(message)` thrown by the code itself
    | RangeError(message: string)          // `new RangeError(message)`
    | RuntimeTypeError(cause: string)      // a TypeError raised by the JavaScript engine
    | MethodNotSupported(name: string)     // `MethodNotSupportedError(method)` of the keyring API

  datatype Result<+T> = Ok(value: T) | Err(error: Failure) {
    predicate IsFailure() { Err? }
    function PropagateFailure<U>(): Result<U>
      requires Err?
    {
      Err(error)
    }
    function Extract(): T
      requires Ok?
    {
      value
    }
  }

  /** The outcome of a call that returns nothing (`Promise<void>`, `void`). */
  datatype Outcome = Pass | Fail(error: Failure) {
    predicate IsFailure() { Fail? }
    function PropagateFailure(): Outcome
      requires Fail?
    {
      this
    }
  }
}
