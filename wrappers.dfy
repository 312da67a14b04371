/** A value that may be absent: JavaScript's `null` or a missing storage key. */
module Wrappers {

  datatype Option<+T> = None | Some(value: T) {

    /** The value, or `default` when absent (the `x || d` idiom). */
    function GetOr(default: T): T {
      match this
      case Some(v) => v
      case None => default
    }
  }
}

/** Integer helpers shared by both timer engines. */
module Numeric {

  /** `Math.max(a, b)` on integers. */
  function Max(a: int, b: int): int { if a < b then b else a }
}
