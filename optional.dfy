/** Option and Result, for values that may be absent and operations that may fail. */
module Optional {

  datatype Option<T> = None | Some(value: T)

  datatype Result<T, E> = Ok(value: T) | Err(error: E)
}
