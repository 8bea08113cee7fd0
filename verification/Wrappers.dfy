/** Result shapes shared by every module: `Option` for `std::optional`, `Result` for a call that may throw. */
module Wrappers {

  datatype Option<+T> = None | Some(value: T)

  datatype Result<+T, +E> = Ok(value: T) | Err(error: E)
}
