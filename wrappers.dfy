/** Optional values, results and outcomes: `undefined`, thrown errors and
    error returns of the modelled TypeScript code become values of these types. */
module Wrappers {

  datatype Option<+T> = None | Some(value: T) {
    function GetOr(default: T): T {
      match this
      case Some(v) => v
      case None => default
    }
  }

  /** A value, or the error the source would throw. */
  datatype Result<+R, +E> = Ok(value: R) | Err(error: E)

  /** Success, or the error the source would throw, for operations without a value. */
  datatype Outcome<+E> = Pass | Fail(error: E)

  function Min(a: int, b: int): int { if a <= b then a else b }

  function Max(a: int, b: int): int { if a >= b then a else b }
}
