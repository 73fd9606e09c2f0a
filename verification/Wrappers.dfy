/** The optional value used for Go's (value, ok) and (object, error) results. */
module Wrappers {
  datatype Option<+T> = None | Some(value: T)
}
