/** The optional value used wherever the modelled Java code returns `null`. */
module Wrappers {

  datatype Option<+T> = None | Some(value: T)
}
