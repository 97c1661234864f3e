/** Success/failure wrappers shared by every stage of the pipeline. */
module Results {

  datatype Option<+T> = None | Some(value: T)

  /** Either a value or the first error a stage raised. */
  datatype Result<+T, +E> = Ok(value: T) | Err(error: E) {
    predicate IsFailure() {
      Err?
    }

    function PropagateFailure<U>(): Result<U, E>
      requires Err?
    {
      Err(error)
    }

    function Extract(): T
      requires Ok?
    {
      value
    }
  }
}
