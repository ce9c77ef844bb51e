/** The optional value used wherever the source has a nullable (`Int?`, `String?`) or a fallible step. */
module Wrappers {
  datatype Option<+T> = None | Some(value: T)
}
