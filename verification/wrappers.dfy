/** The optional-value datatype shared by the codec and the handlers. */
module Wrappers {

  /** A value that may be absent: a missing request field, or a failed decode. */
  datatype Option<+T> = None | Some(value: T)
}
