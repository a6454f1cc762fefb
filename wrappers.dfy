/** Failure-carrying values shared by every module of the model.
    `Result` stands for Rust's `anyhow::Result`: the error is its message. */
module Wrappers {

  datatype Option<+T> = None | Some(value: T) {
    function GetOr(default: T): T {
      match this
      case Some(v) => v
      case None => default
    }
  }

  datatype Result<+T> = Ok(value: T) | Err(msg: string)
}
