/** Options, and the result of a service call: a value, or the error the service raises. */
module Wrappers {

  datatype Option<+T> = None | Some(value: T)

  /** The exceptions of the services. A raised error rolls the whole unit of work back. */
  datatype Error = NotFound | Forbidden | Conflict | ValidationFailed | InvalidTransition | Crashed

  datatype Result<+T> = Success(value: T) | Failure(error: Error) {
    predicate IsFailure() { Failure? }

    function PropagateFailure<U>(): Result<U>
      requires Failure?
    {
      Failure(error)
    }

    function Extract(): T
      requires Success?
    {
      value
    }
  }
}
