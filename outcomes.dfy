/** Values shared by every part of the model: an optional value, the Python
    exception classes the scripts raise or catch, and the outcome of one call
    (it returned a value, or it raised). */
module Outcomes {

  datatype Option<T> = None | Some(value: T)

  /** The exception classes that matter to the scripts' `except` clauses.
      `KeyboardInterrupt` stands for every `BaseException` that is not an
      `Exception` (it escapes `except Exception`). */
  datatype ExcClass =
    | RequestException   // requests.RequestException and its subclasses
    | RuntimeError
    | APIError           // gspread.exceptions.APIError
    | AttributeError
    | KeyError
    | TypeError
    | IndexError
    | ValueError
    | UnboundLocalError
    | KeyboardInterrupt

  /** A raised exception: its class and the text `str(e)` gives. */
  datatype Exc = Exc(cls: ExcClass, text: string)

  /** The result of one call: a returned value or a raised exception. */
  datatype Outcome<T> = Ok(value: T) | Err(exc: Exc)

  /** `isinstance(e, Exception)`. */
  predicate IsException(e: Exc)
  {
    e.cls != KeyboardInterrupt
  }
}
