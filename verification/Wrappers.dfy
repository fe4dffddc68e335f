/** Optional values and the outcome of an operation that may raise. */
module Wrappers {

  datatype Option<+T> = None | Some(value: T)

  /** `Ok` is a normal return; `Err` is an exception, with its cause. */
  datatype Result<+T, +E> = Ok(value: T) | Err(error: E) {

    predicate IsFailure() {
      Err?
    }

    function PropagateFailure<U>(): Result<U, E>
      requires Err?
    {
      Err(error)
    }

    function Extract(): T
      requires Ok?
    {
      value
    }
  }

  /** A guard: `:- Check(condition, cause);` raises `cause` when the condition fails. */
  datatype Guard<+E> = Holds | Fails(error: E) {

    predicate IsFailure() {
      Fails?
    }

    function PropagateFailure<U>(): Result<U, E>
      requires Fails?
    {
      Err(error)
    }
  }

  function Check<E>(condition: bool, cause: E): Guard<E> {
    if condition then Holds else Fails(cause)
  }
}
