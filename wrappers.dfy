/** The optional-value datatype used for JSON `number | null` readings. */
module Wrappers {

  datatype Option<+T> = None | Some(value: T)
}
