/** Success-or-error values for the operations that raise in the Python code. */
module Results {

  /** `Err` stands for a raised exception; `Ok` carries the returned value. */
  datatype Result<+T, +E> = Ok(value: T) | Err(error: E) {

    predicate IsFailure() {
      Err?
    }

    function PropagateFailure<U>(): Result<U, E>
      requires Err?
    {
      Err(error)
    }

    function Extract(): T
      requires Ok?
    {
      value
    }
  }
}
