/** Datatypes shared by every module of the model:
    `Option` stands for a Java `null` / Python `None`, `Result` for a value
    or the exception the source code throws instead of returning. */
module Wrappers {

  datatype Option<+T> = None | Some(value: T) {
    function GetOr(default: T): T {
      match this
      case Some(v) => v
      case None => default
    }
  }

  datatype Result<+T, +E> = Ok(value: T) | Err(error: E)
}
