/** Option and Result, used throughout for Swift optionals, thrown errors and Rust results. */
module Options {

  datatype Option<+T> = None | Some(value: T)

  datatype Result<+T, +E> = Ok(value: T) | Err(error: E)
}
