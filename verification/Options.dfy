/** Optional and fallible results shared by every module. */
module Options {

  datatype Option<+T> = None | Some(value: T)

  /** `Err` carries what the source raises. */
  datatype Result<+T, +E> = Ok(value: T) | Err(error: E)
}
