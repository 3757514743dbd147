/** Failure-carrying values: what the Rust code expresses with `Option`,
    `Result` and, where it panics, an aborted computation. */
module Wrappers {

  datatype Option<+T> = None | Some(value: T)

  datatype Result<+R, +E> = Success(value: R) | Failure(error: E)
}
