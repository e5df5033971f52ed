/** The optional value used wherever the source uses `std::optional` or a nullable result. */
module Wrappers {
  datatype Option<T> = None | Some(value: T)
}
