/** The optional value used for "not found" results (std::string::npos). */
module Wrappers {
  datatype Option<+T> = None | Some(value: T)
}
