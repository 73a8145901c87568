/** Option and Result, the two failure-carrying shapes used across the model. */
module Wrappers {

  datatype Option<+T> = None | Some(value: T)
  {
    function GetOr(default: T): T
    {
      match this
      case Some(v) => v
      case None => default
    }

    function ToResult<E>(error: E): Result<T, E>
    {
      match this
      case Some(v) => Ok(v)
      case None => Err(error)
    }
  }

  /** The outcome of an operation that the source lets raise an exception. */
  datatype Result<+R, +E> = Ok(value: R) | Err(error: E)
  {
    predicate IsFailure()
    {
      Err?
    }

    function PropagateFailure<U>(): Result<U, E>
      requires Err?
    {
      Err(error)
    }

    function Extract(): R
      requires Ok?
    {
      value
    }
  }
}
