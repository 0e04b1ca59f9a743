/** Nullable values: the model's stand-in for a `std::unique_ptr` that may be null. */
module Wrappers {

  datatype Option<+T> = None | Some(value: T)
}
