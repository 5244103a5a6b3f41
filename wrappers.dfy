/** Option, the error kinds of the client and a failure-compatible Result over them. */
module Wrappers {

  datatype Option<+T> = None | Some(value: T)

  /** What can go wrong in the client. Every error aborts the operation in progress. */
  datatype Error =
    | Transport                  // connecting, sending or reading the reply body failed
    | InvalidJson                // the reply body is not JSON text
    | MalformedResponse          // a flattened envelope holds an object with no entries
    | DecodeError(what: string)  // typed decoding failed; `what` names the field or record
    | CryptoError                // key generation, PEM parsing or signing failed
    | PersistenceError           // saving the configuration failed

  datatype Result<+T> = Ok(value: T) | Err(error: Error) {

    predicate IsFailure() {
      Err?
    }

    function PropagateFailure<U>(): Result<U>
      requires Err?
    {
      Err(error)
    }

    function Extract(): T
      requires Ok?
    {
      value
    }
  }
}
