/** Failure-compatible wrappers shared by the model: an optional value and
    a success-or-error result. */
module Wrappers {

  datatype Option<+T> = None | Some(value: T)

  /** Either a value or the error that was raised instead; usable with `:-`. */
  datatype Result<+R, +E> = Ok(value: R) | Err(error: E) {

    predicate IsFailure() {
      Err?
    }

    function PropagateFailure<U>(): Result<U, E>
      requires Err?
    {
      Err(error)
    }

    function Extract(): R
      requires Ok?
    {
      value
    }
  }
}
