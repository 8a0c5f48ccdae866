/** Option and Result, shared by every other module. */
module Basics {

  datatype Option<+T> = None | Some(value: T)

  /** A Python call that either returns a value or raises an exception of some kind. */
  datatype Result<+T, +E> = Ok(value: T) | Err(error: E) {
    predicate IsFailure() { Err? }

    function PropagateFailure<U>(): Result<U, E>
      requires Err?
    {
      Err(error)
    }

    function Extract(): T
      requires Ok?
    {
      value
    }
  }
}
