/** Success-or-failure values shared by every module of the model: a Swift
    optional becomes an `Option`, a throwing call becomes a `Result`. */
module Outcomes {

  datatype Option<+T> = None | Some(value: T)

  datatype Result<+T, +E> = Ok(value: T) | Err(error: E)
}
