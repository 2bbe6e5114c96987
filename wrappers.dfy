/** The absence marker used for the nullable fields of the store (`T | null`). */
module Wrappers {

  datatype Option<+T> = None | Some(value: T)
}
