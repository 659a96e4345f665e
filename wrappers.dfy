/** Option: the absence of a value (a missing JSON key, a failed parse). */
module Wrappers {
  datatype Option<+T> = None | Some(value: T)
}
