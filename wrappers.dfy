/** The two sum types the Rust code leans on: `Option<T>` and
    `Result<T, E>`. */
module Wrappers {
  datatype Option<T> = None | Some(value: T)

  datatype Result<T, E> = Ok(value: T) | Err(error: E)
}
