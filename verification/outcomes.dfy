/** How the dashboard's JavaScript reports absence and failure, as values:
    `Option` is a value that may be `null` or `undefined`, and `Result` is a
    call that either returns or throws. */
module Outcomes {

  datatype Option<T> = None | Some(value: T) {
    /** `x ?? fallback`, the nullish-coalescing operator. */
    function Coalesce(fallback: T): T {
      match this
      case Some(v) => v
      case None => fallback
    }
  }

  /** `Success(v)`: the call returned `v`; `Failure(e)`: it threw `e`. */
  datatype Result<T, E> = Success(value: T) | Failure(error: E)
}
