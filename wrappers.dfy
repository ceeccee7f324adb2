/** The outcome of an asynchronous request to the record store: `None` when the
    request failed (the screens catch the error and log it), `Some(v)` with the
    response body otherwise. */
module Wrappers {

  datatype Option<+T> = None | Some(value: T) {

    /** The wrapped value, or `default` when there is none. */
    function GetOr(default: T): T {
      match this
      case Some(v) => v
      case None => default
    }
  }
}
