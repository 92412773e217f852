/** Option, Result and the outcome of code that may panic. */
module Wrappers {
  datatype Option<+T> = None | Some(value: T)
  {
    function GetOr(default: T): T
    {
      match this
      case None => default
      case Some(v) => v
    }
  }

  /** A Rust `Result` whose error carries a message. */
  datatype Result<+T> = Ok(value: T) | Err(message: string)

  /** The outcome of Rust code that may abort the process: a `panic!`, a failing `unwrap`,
      an out-of-range index or slice, or a `todo!()`. */
  datatype Fallible<+T> = Done(value: T) | Panic(message: string)
}
