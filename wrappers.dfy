/**
 * Option and Result, and the exceptions the Python sources raise.
 * A raised exception becomes an `Err` carrying the exception; a call to
 * `sys.exit(msg)` becomes `Err(SystemExit(msg))`.
 */
module Wrappers {

  datatype Option<T> = None | Some(value: T)

  datatype Exc =
    | ValueError(msg: string)
    | TypeError(msg: string)
    | KeyError(key: string)
    | LookupError(msg: string)
    | IndexError(msg: string)
    | ZeroDivisionError
    | NameError(name: string)
    | AttributeError(name: string)
    | SystemExit(msg: string)
    | GenericException(msg: string)
    /** Not a Python exception: a model's bound on the number of calls ran out. */
    | FuelExhausted

  /** A raised exception propagates: `:-` stops at the first `Err`. */
  datatype Result<T> = Ok(value: T) | Err(error: Exc) {
    predicate IsFailure() { Err? }

    function PropagateFailure<U>(): Result<U>
      requires Err?
    {
      Err(error)
    }

    function Extract(): T
      requires Ok?
    {
      value
    }
  }
}
