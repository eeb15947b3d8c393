/** The optional value and the value-or-error result used wherever the source
    has a value-or-nothing result (a JSON decode that may fail, a header that
    may lack its prefix) or an operation that may abort the request. */
module Outcomes {

  datatype Option<+T> = None | Some(value: T) {

    /** The value in `Some`, or `default` for `None`. */
    function GetOr(default: T): T {
      match this
      case Some(v) => v
      case None => default
    }
  }

  /** A result or the error message the handler answers with. */
  datatype Result<+T> = Success(value: T) | Failure(error: string)
}
