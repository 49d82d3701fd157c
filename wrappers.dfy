/** Option and Result values used throughout the model in place of Python's
    `None` and raised exceptions. */
module Wrappers {

  datatype Option<+T> = None | Some(value: T) {
    /** Python's `x or default` for an optional value. */
    function GetOr(default: T): T {
      match this
      case Some(v) => v
      case None => default
    }
  }

  /** How `str()` and an f-string show an optional string: `None` for
      `None`. */
  function Show(v: Option<string>): string {
    match v
    case None => "None"
    case Some(s) => s
  }

  /** The Python exception kinds that the modelled code raises or catches. */
  datatype Error =
    | ValueError(message: string)
    | RuntimeError(message: string)
    | TypeError(message: string)
    | KeyError(key: string)
    | IndexError
    | NameError(name: string)
    | AttributeError(name: string)
    | ZeroDivisionError
    | DatabaseError
    | HttpError
    | RemoteProtocolError
    | CloseFailed

  datatype Result<+T> = Ok(value: T) | Err(error: Error) {
    predicate IsOk() { Ok? }

    /** The three members that let `:-` propagate a raised exception. */
    predicate IsFailure() { Err? }

    function PropagateFailure<U>(): Result<U>
      requires Err?
    {
      Err(error)
    }

    function Extract(): T
      requires Ok?
    {
      value
    }
  }
}
