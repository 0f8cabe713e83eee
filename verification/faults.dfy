/** The Python exceptions the modelled code can raise, a result type that
    carries either a value or the exception that ended the call, and the
    optional value that stands for Python's `None`. */
module Faults {

  datatype Fault =
    | ZeroDivisionError  // `sum / samples` with samples == 0
    | IndexError         // indexing a stored settings list that is too short
    | TypeError          // `round` applied to a stored string
    | OSError            // the non-volatile memory could not be read
    | RuntimeError       // the button panel was built without a touchscreen

  datatype Result<+T> = Ok(value: T) | Err(fault: Fault) {

    predicate IsFailure()
    {
      Err?
    }

    function PropagateFailure<U>(): Result<U>
      requires Err?
    {
      Err(fault)
    }

    function Extract(): T
      requires Ok?
    {
      value
    }
  }

  datatype Option<T> = None | Some(value: T)
}
