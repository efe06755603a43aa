/** Failure-carrying results, and the Python exception classes the client raises. */
module Wrappers {

  datatype Option<+T> = None | Some(value: T)

  /** The Python exceptions raised by the modelled code. `UnexpectedResponse` carries the
      status code and the message built by `UnexpectedResponseException.__init__`. */
  datatype Error =
    | KeyError
    | ValueError
    | TypeError
    | AttributeError
    | NotImplementedError
    | AssertionError
    | ConnectionError
    | OverflowError
    | UnexpectedResponse(status: int, message: Option<string>)

  /** The outcome of a Python call that returns a value or raises. */
  datatype Result<+T> = Ok(value: T) | Err(error: Error) {
    predicate IsFailure() { Err? }
    function PropagateFailure<U>(): Result<U>
      requires Err?
    {
      Err(error)
    }
    function Extract(): T
      requires Ok?
    {
      value
    }
  }

  /** The outcome of a Python call that returns nothing or raises. */
  datatype Outcome = Pass | Fail(error: Error)
}
