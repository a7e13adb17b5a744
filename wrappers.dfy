/** Option and Result, used for Python's "None" and for calls that raise. */
module Wrappers {

  datatype Option<+T> = None | Some(value: T) {
    predicate IsFailure() { None? }
    function PropagateFailure<U>(): Option<U>
      requires None?
    {
      None
    }
    function Extract(): T
      requires Some?
    {
      value
    }
  }

  /** The outcome of a Python call that may raise: a value, or the exception's message. */
  datatype Result<+T> = Ok(value: T) | Err(error: string)
}
