/** Option for values that may be absent, and Outcome for evaluations that may raise. */
module Wrappers {

  /** A value that may be absent (Python's `None`). */
  datatype Option<+T> = None | Some(value: T) {
    function GetOr(default: T): T {
      match this
      case Some(v) => v
      case None => default
    }
  }

  /** The outcome of evaluating Python code that may raise an exception.
      The model does not distinguish exception classes: every caller in the
      source either catches all of them or lets all of them through. */
  datatype Outcome<+T> = Done(value: T) | Raised {
    predicate IsFailure() {
      Raised?
    }

    function PropagateFailure<U>(): Outcome<U>
      requires Raised?
    {
      Raised
    }

    function Extract(): T
      requires Done?
    {
      value
    }
  }
}
