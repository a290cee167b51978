/** Option and Result, the two wrappers every other module uses for "absent" and "failed". */
module Wrappers {
  datatype Option<T> = None | Some(value: T)
  {
    predicate IsSome() { this.Some? }

    function GetOr(default: T): T
    {
      match this
      case None => default
      case Some(v) => v
    }
  }

  /** A JavaScript `throw` or a SQLite error, carried as a value. */
  datatype Result<T> = Ok(value: T) | Err(error: string)
  {
    predicate IsFailure() { this.Err? }
  }
}
