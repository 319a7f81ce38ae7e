/** The optional value used wherever the program has "a result or nothing". */
module Wrappers {

  datatype Option<+T> = None | Some(value: T)
}
