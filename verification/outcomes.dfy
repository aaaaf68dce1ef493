/** The two small sum types the other modules share: a value JavaScript or Python may
    leave out (`undefined`, `None`, a missing dictionary key), and the outcome of a Python
    call that either returns or raises. */
module Outcomes {

  /** A value that is present or left out. */
  datatype Option<T> = Some(value: T) | None {
    /** The value if present, `fallback` otherwise; `x || fallback` and `x or fallback`
        read an absent value this way. */
    function ValueOr(fallback: T): T {
      if Some? then value else fallback
    }
  }

  /** What a Python call ends with: the value it returns, or the exception it raises. */
  datatype Result<R, E> = Success(value: R) | Failure(error: E)
}
