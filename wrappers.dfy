/** Optional values and the two kinds of exception the dispatcher tells apart. */
module Wrappers {

  datatype Option<+T> = None | Some(value: T)

  /** An exception as the dispatchers classify it: a `HandlerBadRequestError`
      (handlers/base.py), which keeps the message it was raised with, or any
      other exception (a missing key, a call on a value of the wrong type, a
      query on a table that does not exist, a timestamp that does not parse). */
  datatype Failure = BadRequest(message: string) | Internal

  /** The outcome of a Python computation: it returns a value or raises. */
  datatype Py<+T> = Ret(value: T) | Raise(failure: Failure)
  {
    predicate IsFailure() { Raise? }

    function PropagateFailure<U>(): Py<U>
      requires Raise?
    {
      Raise(failure)
    }

    function Extract(): T
      requires Ret?
    {
      value
    }
  }
}
