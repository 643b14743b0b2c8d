/** Optional values, and results that carry one of the program's errors. */
module Outcomes {

  datatype Option<+T> = None | Some(value: T) {
    function GetOr(default: T): T {
      match this
      case Some(v) => v
      case None => default
    }
  }

  /** The exception classes the modelled code raises. */
  datatype Error =
    | BindingError
    | CacheError
    | CancellationError
    | CompatibilityError
    | ConfigError
    | ExtractionError
    | FileNotFound
    | OfflineViolation
    | PolicyError

  datatype Result<+T> = Success(value: T) | Failure(error: Error)

  function Min(a: int, b: int): int {
    if a <= b then a else b
  }
}
