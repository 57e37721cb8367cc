/** Outcomes of the loss and metric computations: a value, or the error the
    Python code raises (or the non-finite value torch would return). */
module Results {

  datatype Error =
    | ShapeMismatch      // shapes disagree, or a tensor has too few dimensions
    | ConfigurationError // a missing or unusable configuration entry or constructor argument
    | UnsupportedLoss    // the factory does not know the loss name
    | InvalidValue       // a value the operation refuses (negative class index, division by zero in Python)
    | NonFinite          // torch returns inf or NaN: a division by zero, or a mean over no element
    | TypeMismatch       // torch refuses the operation for the operand's dtype (arithmetic on a bool tensor)

  datatype Result<+T> = Ok(value: T) | Err(error: Error) {
    predicate IsFailure() { Err? }

    function PropagateFailure<U>(): Result<U>
      requires Err?
    {
      Err(error)
    }

    function Extract(): T
      requires Ok?
    {
      value
    }
  }

  datatype Option<+T> = None | Some(value: T)
}
