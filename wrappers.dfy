/** Option and Result, and the Python exceptions the modelled code can raise. */
module Wrappers {

  datatype Option<T> = None | Some(value: T)

  /** A lookup that Python would abort with an exception. */
  datatype Error =
    | KeyError(key: string)     // `d[key]` on a dict (or ChainMap) without that key
    | IndexError(what: string)  // `xs[0]` on an empty list

  datatype Result<T> = Ok(value: T) | Err(error: Error) {
    predicate IsFailure() { Err? }

    function PropagateFailure<U>(): Result<U>
      requires Err?
    {
      Err(error)
    }

    function Extract(): T
      requires Ok?
    {
      value
    }
  }
}
