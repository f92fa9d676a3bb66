/** Failure-carrying result types shared by every module of the model.
    A Python exception that the modelled code raises (or lets escape) becomes
    an `Err`/`Fail` tagged with the exception class. */
module Wrappers {

  /** Python `None` or a value. */
  datatype Option<+T> = None | Some(value: T)

  /** The Python exception classes the modelled code can raise. */
  datatype Exc =
    | KeyError
    | IndexError
    | ValueError
    | RuntimeError
    | AttributeError
    | AssertionError
    | ModuleNotFoundError
    | GenericException

  /** The outcome of a call that returns a value or raises. */
  datatype Result<+T> = Ok(value: T) | Err(error: Exc)

  /** The outcome of a call that returns nothing or raises. */
  datatype Outcome = Pass | Fail(error: Exc)
}
