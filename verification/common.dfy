/** Small shared datatypes. */
module Common {

  /** A value that may be absent: JavaScript's `null`/`undefined` on the reading side. */
  datatype Option<+T> = None | Some(value: T) {

    /** The held value, or `default` when absent (JavaScript's `x ?? default`). */
    function GetOr(default: T): T {
      match this
      case Some(v) => v
      case None => default
    }
  }

  /** The outcome of a step that can fail with an error of type `E`. */
  datatype Result<+T, +E> = Ok(value: T) | Err(error: E)

  function Min(a: int, b: int): int {
    if a <= b then a else b
  }

  function Max(a: int, b: int): int {
    if a >= b then a else b
  }
}
