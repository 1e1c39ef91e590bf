/** Failure-carrying datatypes shared by every module of the model.

    The Rust source reports failure in two ways: an `anyhow::Error` returned to the
    caller (`bail!`, `.context(..)?`), and a panic (`assert!`, `unwrap`, `expect`,
    `panic!`). `Result` keeps the two apart: `Err` is the returned error, `Panic` the
    unwinding one. */
module Wrappers {

  datatype Option<T> = None | Some(value: T) {
    function GetOr(default: T): T {
      match this
      case Some(v) => v
      case None => default
    }
  }

  datatype Result<T> = Ok(value: T) | Err(message: string) | Panic(reason: string)
}
