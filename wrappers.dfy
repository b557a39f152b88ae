/** Failure-compatible wrappers used throughout the model: an optional value,
    and the "value or thrown error" outcome of a JavaScript call that may throw. */
module Wrappers {

  datatype Option<+T> = None | Some(value: T)

  /** `Ok(v)` is a normal return of `v`; `Err(e)` is `throw new Error(e)`. */
  datatype Result<+T, +E> = Ok(value: T) | Err(error: E) {
    predicate IsFailure() {
      Err?
    }

    function PropagateFailure<U>(): Result<U, E>
      requires Err?
    {
      Err(error)
    }

    function Extract(): T
      requires Ok?
    {
      value
    }
  }

  /** The outcome of a JavaScript function returning `void` that may throw. */
  datatype Outcome<+E> = Pass | Fail(error: E)
}
