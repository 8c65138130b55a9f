/** Results and errors shared by every module of the model.  Python exceptions
    become `Err` values carrying the exception class and its message. */
module Wrappers {

  datatype Option<T> = None | Some(value: T)

  /** The exceptions the client raises (or lets propagate). */
  datatype Error =
    | ValueError(msg: string)
    | TypeError(msg: string)
    | IndexError(msg: string)
    | KeyError(msg: string)
    | AttributeError(name: string)  // an attribute of an empty, column-less DataFrame
    | AssertionError
    | HttpError(status: int)        // raise_for_status on a status of 400 or more
    | ConnectionError               // the stubbed server has no answer left
    | FileNotFound(path: string)    // open() on a path that is not a file
    | UnboundLocal(name: string)    // a local read before any assignment

  datatype Result<T> = Ok(value: T) | Err(error: Error) {
    predicate IsFailure() { Err? }
    function PropagateFailure<U>(): Result<U>
      requires Err?
    {
      Err(error)
    }
    function Extract(): T
      requires Ok?
    {
      value
    }
  }

  /** The outcome of an operation that returns nothing. */
  datatype Outcome = Pass | Fail(error: Error)
}
