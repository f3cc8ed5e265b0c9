/** Optional values and results with an error message, standing for Python's `None` and its exceptions. */
module Wrappers {

  datatype Option<+T> = None | Some(value: T)

  /** `Err` carries the name of the exception the source raises and what it is about. */
  datatype Result<+T> = Ok(value: T) | Err(error: string)
  {
    predicate IsFailure()
    {
      Err?
    }

    function PropagateFailure<U>(): Result<U>
      requires Err?
    {
      Err(error)
    }

    function Extract(): T
      requires Ok?
    {
      value
    }
  }

  /** A step that returns nothing, or the exception it raises. */
  datatype Outcome = Pass | Fail(error: string)
}
