/** Option and Result, and the Python exceptions the modelled code can raise. */
module Wrappers {

  datatype Option<+T> = None | Some(value: T)

  /** The exceptions the modelled code raises on malformed input. */
  datatype PyError =
    | KeyError(key: string)   // a subscript with a missing key
    | TypeError               // `in`, a subscript, a call or iteration on a value of the wrong type

  /** The outcome of a Python computation: its value, or the exception it raises. */
  datatype Result<+T> = Ok(value: T) | Err(error: PyError) {

    predicate IsFailure() {
      Err?
    }

    function PropagateFailure<U>(): Result<U>
      requires Err?
    {
      Err(error)
    }

    function Extract(): T
      requires Ok?
    {
      value
    }
  }
}
