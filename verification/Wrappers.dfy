/** The two failure types the other modules share. */
module Wrappers {

  datatype Option<+T> = None | Some(value: T)

  /** A Python call that either returned a value or raised. */
  datatype Result<+T, +E> = Ok(value: T) | Err(error: E) {
    predicate IsFailure() {
      Err?
    }

    function PropagateFailure<U>(): Result<U, E>
      requires Err?
    {
      Err(error)
    }

    function Extract(): T
      requires Ok?
    {
      value
    }
  }
}
