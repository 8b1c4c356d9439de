/** Small failure-carrying datatypes shared by the other modules. */
module Wrappers {

  /** Python's `Optional[T]`: `None` or a present value. */
  datatype Option<+T> = None | Some(value: T)

  /** The result of a Python call that either returns a value or raises. */
  datatype Result<+T> = Ok(value: T) | Raised
}
