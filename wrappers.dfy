/** Option and Result values standing in for `null` and thrown errors. */
module Wrappers {

  /** `None` plays the part of `null` / `undefined`. */
  datatype Option<+T> = None | Some(value: T)

  /** A value, or the error an operation throws. */
  datatype Result<+T, +E> = Success(value: T) | Failure(error: E)

  /** The completion of an operation that returns nothing (`Promise<void>`). */
  datatype Outcome<+E> = Pass | Fail(error: E)

  /** The field a spread `{ ...old, ...updates }` ends up with: the update's when present. */
  function Override<T>(update: Option<T>, current: T): (r: T)
    ensures update.Some? ==> r == update.value
    ensures update.None? ==> r == current
  {
    if update.Some? then update.value else current
  }

  /** Two spreads in a row: the later update's field when present, else the earlier one's. */
  function Later<T>(second: Option<T>, first: Option<T>): (r: Option<T>)
    ensures second.Some? ==> r == second
    ensures second.None? ==> r == first
  {
    if second.Some? then second else first
  }
}
