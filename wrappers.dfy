/** Option and Result, the two failure-compatible wrappers the model uses for Java's
    nullable references and for exceptions. */
module Wrappers {

  /** A nullable Java reference: None stands for null. */
  datatype Option<+T> = None | Some(value: T) {
    predicate IsFailure() { None? }

    function PropagateFailure<U>(): Option<U>
      requires None?
    {
      None
    }

    function Extract(): T
      requires Some?
    {
      value
    }
  }

  /** The outcome of an operation that may throw: Failure carries what was thrown. */
  datatype Result<+R, +E> = Success(value: R) | Failure(error: E) {
    predicate IsFailure() { Failure? }

    function PropagateFailure<U>(): Result<U, E>
      requires Failure?
    {
      Failure(error)
    }

    function Extract(): R
      requires Success?
    {
      value
    }
  }

  /** Applies f to the value of a non-null reference; null stays null. */
  function MapOption<A, B>(o: Option<A>, f: A -> B): Option<B>
  {
    if o.Some? then Some(f(o.value)) else None
  }
}
