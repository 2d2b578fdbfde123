/** Option and Result, as the Rust code uses them, and the reasons a Rust call can panic. */
module Wrappers {

  datatype Option<+T> = None | Some(value: T) {
    /** `Option::unwrap_or`. */
    function UnwrapOr(default: T): T {
      match this
      case Some(v) => v
      case None => default
    }
  }

  datatype Result<+T, +E> = Ok(value: T) | Err(error: E)

  /** Why a call stopped by panicking instead of returning. */
  datatype Panic =
    | UnwrapOnNone                      // `Option::unwrap()` on `None`
    | UnwrapOnErr                       // `Result::unwrap()` on `Err`
    | ExpectFailed(message: string)     // `expect(message)` on `None` or `Err`
    | IndexOutOfBounds                  // `Vec::remove` past the end
    | AddOverflow                       // integer `+` leaving its type (debug builds)
    | DeserializeFailed                 // the explicit `panic!` after a failed decode
}
