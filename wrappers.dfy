/** The optional value used for the nullable references and strings of the capture components. */
module Wrappers {
  datatype Option<+T> = None | Some(value: T)
}
