/** Failure-compatible Option and Result types shared by every module.
    Both can be used with `:-`, so a validation failure propagates to the
    caller unchanged, as a raised ValidationError does in the modelled code. */
module Wrappers {

  /** A value that may be absent: Python's `Optional[T]`, `None` being `None`. */
  datatype Option<+T> = None | Some(value: T) {

    predicate IsFailure() {
      None?
    }

    function PropagateFailure<U>(): Option<U>
      requires None?
    {
      None
    }

    function Extract(): T
      requires Some?
    {
      value
    }
  }

  /** The outcome of building a record: the validated record, or the message
      of the validation error that stopped construction. */
  datatype Result<+T> = Success(value: T) | Failure(error: string) {

    predicate IsFailure() {
      Failure?
    }

    function PropagateFailure<U>(): Result<U>
      requires Failure?
    {
      Failure(error)
    }

    function Extract(): T
      requires Success?
    {
      value
    }
  }
}
