/** Failure-carrying result types shared by every module of the broker model. */
module Outcomes {

  /** A value that may be missing, as Go's nil error or missing map entry. */
  datatype Option<+T> = None | Some(value: T)

  /** Either a value or the error the Go code returns alongside a zero value. */
  datatype Result<+T, +E> = Ok(value: T) | Err(error: E) {
    predicate IsFailure() {
      Err?
    }

    function PropagateFailure<U>(): Result<U, E>
      requires Err?
    {
      Err(error)
    }

    function Extract(): T
      requires Ok?
    {
      value
    }
  }
}
