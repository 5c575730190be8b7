/** Results of the converter's steps: a value, or the Python exception that would abort the step. */
module Outcome {

  datatype Option<+T> = None | Some(value: T)

  /** The exceptions the converter can raise while reading records or wiring the graph. */
  datatype Fault = IndexError | ValueError | TypeError

  datatype Result<+T> = Ok(value: T) | Err(fault: Fault) {

    predicate IsFailure() {
      Err?
    }

    function PropagateFailure<U>(): Result<U>
      requires Err?
    {
      Err(fault)
    }

    function Extract(): T
      requires Ok?
    {
      value
    }
  }
}
