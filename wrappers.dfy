/** Option, Result and Outcome: the model's stand-ins for Go's nil pointers,
    `(value, error)` pairs and bare `error` returns. */
module Wrappers {

  datatype Option<+T> = None | Some(value: T)

  /** A value or an error, usable with `:-`. */
  datatype Result<+T, +E> = Ok(value: T) | Err(error: E) {
    predicate IsFailure() {
      Err?
    }

    function PropagateFailure<U>(): Result<U, E>
      requires Err?
    {
      Err(error)
    }

    function Extract(): T
      requires Ok?
    {
      value
    }
  }

  /** What a Go function returning only `error` reports: nil or an error. */
  datatype Outcome<+E> = Pass | Fail(error: E)
}
