/** Optional values and results with the three Python exceptions the core
    can raise on its own inputs. */
module Wrappers {

  datatype Option<T> = None | Some(value: T)

  /** The exceptions `dict[key]`, `int(...)` and `datetime.fromisoformat` raise. */
  datatype PyError = KeyError | ValueError | TypeError

  datatype Result<T> = Ok(value: T) | Err(error: PyError)
  {
    predicate IsFailure() { Err? }

    function PropagateFailure<U>(): Result<U>
      requires Err?
    {
      Err(error)
    }

    function Extract(): T
      requires Ok?
    {
      value
    }
  }
}
