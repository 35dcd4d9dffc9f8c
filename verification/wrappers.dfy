/** The optional-value datatype used for TypeScript's `T | undefined`. */
module Wrappers {

  /** `None` is `undefined` (or an absent key); `Some(v)` is a present value. */
  datatype Option<+T> = None | Some(value: T) {

    /** The value, or `default` when there is none (TypeScript's `x ?? default`). */
    function GetOr(default: T): T {
      match this
      case Some(v) => v
      case None => default
    }
  }
}
