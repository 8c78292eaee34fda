/** Option and Result values that stand for JavaScript's `undefined` / `null`
    and for the `{success, ...}` records returned by the action layer. */
module Wrappers {

  datatype Option<+T> = None | Some(value: T) {
    /** The value, or `default` when absent (JavaScript's `x ?? default`). */
    function GetOr(default: T): T {
      match this
      case Some(v) => v
      case None => default
    }
  }

  /** `{success: true, ...payload}` or `{success: false, error}`. */
  datatype Result<+T> = Ok(value: T) | Err(error: string) {
    predicate Success() { Ok? }
  }
}
