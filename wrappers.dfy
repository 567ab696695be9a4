/** The optional value used for the widget's "may be unset" state. */
module Wrappers {

  datatype Option<+T> = None | Some(value: T)
}
