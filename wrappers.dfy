/** Option and Result: the sentinels (`null`, `NaN`, an alert) that the tracker
    returns instead of raising. */
module Wrappers {

  datatype Option<+T> = None | Some(value: T)

  datatype Result<+T, +E> = Ok(value: T) | Err(error: E)
}
