/** Failure-carrying datatypes shared by every module of the model.

    Python raises exceptions; the model returns them.  `Exc` names the
    exception classes the modelled code raises, with the message it carries. */
module Wrappers {

  datatype Option<+T> = None | Some(value: T)

  /** The Python exceptions the modelled code raises. */
  datatype Exc =
    | ValueError(message: string)
    | KeyError(key: string)
    | TypeError(message: string)
    | RuntimeError(message: string)
    | AttributeError(message: string)
    | NameError(name: string)

  /** Either a value or the exception raised while computing it. */
  datatype Result<+T> = Ok(value: T) | Err(error: Exc) {
    predicate IsFailure() { Err? }
    function PropagateFailure<U>(): Result<U>
      requires Err?
    {
      Err(error)
    }
    function Extract(): T
      requires Ok?
    {
      value
    }
  }

  /** A command that returns nothing useful, or raises. */
  datatype Outcome = Pass | Fail(error: Exc) {
    predicate IsFailure() { Fail? }
    function PropagateFailure(): Outcome
      requires Fail?
    {
      this
    }
  }
}
