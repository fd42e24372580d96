/**
 * The optional value used wherever the source has `T | null` or `T | undefined`, and the
 * result shape of a yes/no check with an optional message.
 */
module Wrappers {

  datatype Option<+T> = None | Some(value: T) {

    /** Returns the value in Some, or `default` for None (JavaScript's `x ?? default`). */
    function GetOr(default: T): T {
      match this
      case Some(v) => v
      case None => default
    }
  }

  /** The `{ valid, error? }` result of a check: `error` is None when the key is absent. */
  datatype Verdict = Verdict(valid: bool, error: Option<string>)
}
