/** Optional values and results that are either a value or the message of
    the `std::runtime_error` the source throws. */
module Outcome {
  datatype Option<T> = None | Some(value: T)

  datatype Result<T> = Ok(value: T) | Err(msg: string)
}
