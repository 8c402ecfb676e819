/** Exceptions raised by the quantitative engine, and the value a call either
    returns or raises. Python's exception control flow becomes a datatype. */
module Outcomes {

  /** The Python exceptions the core can raise. */
  datatype Exception =
    | ZeroDivisionError   // a Python float divided by zero
    | ValueError          // int() of NaN or of a malformed string, a refused window
    | IndexError          // `xs[-1]` on an empty list
    | ImportError         // the optional regression library is missing

  /** A call either returns a value or raises an exception. */
  datatype Outcome<+T> = Ok(value: T) | Raised(error: Exception)

  datatype Option<+T> = None | Some(value: T)
}
