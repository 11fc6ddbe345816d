/** Failure-compatible result types shared by the configuration and mesh models. */
module Wrappers {

  /** An optional value: Python's `None` or a present value. */
  datatype Option<+T> = None | Some(value: T)

  /** The value of an operation that either completes or stops with an error. */
  datatype Result<+R, +E> = Success(value: R) | Failure(error: E) {

    predicate IsFailure() {
      Failure?
    }

    function PropagateFailure<U>(): Result<U, E>
      requires Failure?
    {
      Failure(error)
    }

    function Extract(): R
      requires Success?
    {
      value
    }
  }

  /** The outcome of a state-changing step: it completes, or stops with an error. */
  datatype Outcome<+E> = Pass | Fail(error: E)

  /** The outcome of a step whose value is `res`. */
  function OutcomeOf<R, E>(res: Result<R, E>): (o: Outcome<E>)
    ensures o.Pass? <==> res.Success?
    ensures o.Fail? ==> o.error == res.error
  {
    match res
    case Success(_) => Pass
    case Failure(e) => Fail(e)
  }
}
