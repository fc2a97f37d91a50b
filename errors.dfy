/** Failure values shared by every module: each Python exception that the
    modelled code can raise becomes a Failure, which aborts the whole parse. */
module Errors {

  datatype Error =
    | StopIteration   // the line iterator was advanced past the last line
    | IndexError      // a list or string index out of range
    | ValueError      // int() or float() of a malformed token
    | AttributeError  // an attribute access or assignment on None
    | KeyError        // a dictionary lookup of a missing key
    | DecodeError     // the text decoder rejected a byte string

  datatype Option<+T> = None | Some(value: T)

  datatype Result<+T> = Success(value: T) | Failure(error: Error) {
    predicate IsFailure() { Failure? }

    function PropagateFailure<U>(): Result<U>
      requires Failure?
    {
      Failure(error)
    }

    function Extract(): T
      requires Success?
    {
      value
    }
  }
}
