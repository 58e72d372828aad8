/** Result and Option values used where the C++ code throws or returns an empty reference. */
module Wrappers {
  datatype Option<T> = None | Some(value: T)

  /** `Err(message)` stands for a `std::runtime_error` thrown with that message. */
  datatype Result<T> = Ok(value: T) | Err(message: string)
  {
    predicate IsFailure() { Err? }
  }
}
