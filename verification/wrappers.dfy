/** Absent-or-present values for the fields read from a JSON request body. */
module Wrappers {

  /** `None` is a field the body does not carry (JavaScript `undefined`); `Some(v)` carries `v`. */
  datatype Option<+T> = None | Some(value: T)
}
