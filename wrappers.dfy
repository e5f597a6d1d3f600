/** The optional value used for the `None`-or-value fields of the tracker. */
module Wrappers {

  datatype Option<+T> = None | Some(value: T)
}
