/** The optional value used for payload keys that may be absent and for errors that may be raised. */
module Wrappers {

  datatype Option<+T> = None | Some(value: T)
}
