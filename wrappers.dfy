/// Option and Result, the two failure-carrying wrappers the Rust sources use
/// (`Option<T>` and `Result<T, E>`).
module Wrappers {

  datatype Option<+T> = None | Some(value: T) {
    /// `unwrap_or`: the value, or `default` when there is none.
    function UnwrapOr(default: T): T {
      if Some? then value else default
    }
  }

  datatype Result<+T, +E> = Ok(value: T) | Err(error: E)
}
