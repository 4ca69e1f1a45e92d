/** Shared result types. Times are whole seconds (or milliseconds) on one axis, modelled as `int`. */
module Common {

  datatype Option<+T> = None | Some(value: T)

  datatype Result<+T, +E> = Ok(value: T) | Err(error: E)

  type Time = int
}
