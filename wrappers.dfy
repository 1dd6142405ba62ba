/** Option, for the values that the deserialized records may leave null. */
module Wrappers {

  datatype Option<+T> = None | Some(value: T)
}
