/** Failure-compatible wrappers shared by the whole model. */
module Wrappers {

  /** A value that may be absent: Python's `None` or a missing key. */
  datatype Option<T> = None | Some(value: T) {
    function GetOr(default: T): T {
      match this
      case Some(v) => v
      case None => default
    }
  }

  /** The Python exceptions that the modelled code can raise by accident
      when it reads a value of the wrong shape. */
  datatype PyError =
    | AttributeError   // `.get` on something that is not a dict
    | KeyError         // `x[k]` on a dict that lacks `k`
    | TypeError        // `len()` of a number or a boolean
    | IndexError       // `xs[-1]` on an empty list

  /** Either a value, or the exception that escaped while computing it. */
  datatype Result<T> = Ok(value: T) | Raised(error: PyError) {
    predicate IsFailure() { Raised? }

    function PropagateFailure<U>(): Result<U>
      requires Raised?
    {
      Raised(error)
    }

    function Extract(): T
      requires Ok?
    {
      value
    }
  }
}
