/** Failure-compatible wrappers used across the model: an optional value, a
    value-or-error result, and a pass-or-fail outcome for steps that return nothing. */
module Results {

  datatype Option<+T> = None | Some(value: T) {
    /** The value, or the given error when there is none (Rust's `ok_or`). */
    function OkOr<E>(error: E): Result<T, E>
    {
      match this
      case Some(v) => Ok(v)
      case None => Err(error)
    }
  }

  datatype Result<+T, +E> = Ok(value: T) | Err(error: E) {
    predicate IsFailure() { Err? }

    function PropagateFailure<U>(): Result<U, E>
      requires Err?
    {
      Err(error)
    }

    function Extract(): T
      requires Ok?
    {
      value
    }
  }

  datatype Outcome<+E> = Pass | Fail(error: E)
}
