/** Option, Result and the identifiers shared by every module. */
module Basics {

  datatype Option<+T> = None | Some(value: T)

  /** Failure-compatible, so a spec function can stop at the first failing guard with `:-`. */
  datatype Result<+T, +E> = Success(value: T) | Failure(error: E) {
    predicate IsFailure() {
      Failure?
    }

    function PropagateFailure<U>(): Result<U, E>
      requires Failure?
    {
      Failure(error)
    }

    function Extract(): T
      requires Success?
    {
      value
    }
  }

  datatype Check<+E> = Pass | Fail(error: E) {
    predicate IsFailure() {
      Fail?
    }

    function PropagateFailure<U>(): Result<U, E>
      requires Fail?
    {
      Failure(error)
    }
  }

  function Need<E>(condition: bool, error: E): Check<E> {
    if condition then Pass else Fail(error)
  }

  function Present<T, E>(value: Option<T>, error: E): Result<T, E> {
    if value.Some? then Success(value.value) else Failure(error)
  }

  /** A generated identifier. Only equality is ever asked of it. */
  type Id = nat

  /** battle_turns.turn_id, by the table's other unique key (session_id, turn_number). */
  datatype TurnId = TurnId(session: Id, number: nat)
}
