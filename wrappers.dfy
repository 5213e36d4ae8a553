/** Option type used for lookups that can fail and for C pointers that may be NULL. */
module Wrappers {
  datatype Option<+T> = None | Some(value: T)
}
