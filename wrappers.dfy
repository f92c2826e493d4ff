/** Small failure-compatible wrappers shared by the whole model. */
module Wrappers {

  /** A value that may be absent: Ruby's `nil` is `None`. */
  datatype Maybe<+T> = None | Some(value: T)

  /** The outcome of an operation that either passes or fails with an error. */
  datatype Outcome<+E> = Pass | Fail(error: E)

  /** Ruby's `x || default` for a value that is either nil or a string/symbol:
      only an absent value falls through to the default (an empty string wins). */
  function Or<T>(m: Maybe<T>, default: T): (r: T)
    ensures m.Some? ==> r == m.value
    ensures m.None? ==> r == default
  {
    match m
    case Some(v) => v
    case None => default
  }

  /** Ruby `a || b` on two possibly-nil values: the first unless it is nil. */
  function OrElse<T>(m: Maybe<T>, fallback: Maybe<T>): (r: Maybe<T>)
    ensures m.Some? ==> r == m
    ensures m.None? ==> r == fallback
  {
    if m.Some? then m else fallback
  }
}
