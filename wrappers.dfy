/** The optional value used wherever the tagger passes `None` or a value. */
module Wrappers {

  datatype Option<+T> = None | Some(value: T)
}
