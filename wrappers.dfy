/** Failure-compatible datatypes shared by the two components: an optional value
    (Kotlin's nullable types) and a result that is either a value or one of the
    exceptions the Kotlin code throws. */
module Wrappers {

  datatype Option<+T> = None | Some(value: T)

  /** The exception kinds that leave the modelled code. IOException is the
      recoverable one; IllegalStateException comes from a failed `check(...)`,
      AssertionError from an unreadable metadata cache. */
  datatype Failure = IOException | IllegalStateException | AssertionError

  datatype Result<+T> = Ok(value: T) | Err(error: Failure) {
    predicate IsFailure() {
      Err?
    }

    function PropagateFailure<U>(): Result<U>
      requires Err?
    {
      Err(error)
    }

    function Extract(): T
      requires Ok?
    {
      value
    }
  }
}
