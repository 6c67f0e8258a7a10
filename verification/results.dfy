/** Failure-compatible wrappers shared by the whole model. */
module Results {

  /** A value that may be missing: a Python dict key that is absent. */
  datatype Option<+T> = None | Some(value: T)

  /** A YAML key distinguishing "absent" from "present but null". */
  datatype Entry<+T> = Missing | Null | Value(v: T)

  /** The outcome of an operation that may raise. */
  datatype Result<+T, +E> = Ok(value: T) | Err(error: E) {

    predicate IsFailure() {
      Err?
    }

    function PropagateFailure<U>(): Result<U, E>
      requires Err?
    {
      Err(error)
    }

    function Extract(): T
      requires Ok?
    {
      value
    }
  }
}
