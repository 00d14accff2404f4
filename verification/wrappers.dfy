/** Failure-compatible datatypes shared by both instrument drivers.

    `Error` collects the ways a driver call can fail:
    - InvalidArgument: the caller passed a value of the wrong kind or outside the
      accepted set (the driver raises TypeError or ValueError before sending anything);
    - NotSupported: the device has no way to answer (NotImplementedError);
    - ProtocolError: a reply could not be read as the expected number or code;
    - TransferError: the instrument gave no reply to a query;
    - MissingAttribute: the driver looks up an attribute that its own class does not have.
 */
module Wrappers {

  datatype Option<+T> = None | Some(value: T)

  datatype Error =
    | InvalidArgument
    | NotSupported
    | ProtocolError
    | TransferError
    | MissingAttribute

  datatype Result<+T> = Ok(value: T) | Err(error: Error) {

    predicate IsFailure() {
      Err?
    }

    function PropagateFailure<U>(): Result<U>
      requires Err?
    {
      Err(error)
    }

    function Extract(): T
      requires Ok?
    {
      value
    }
  }
}
