/** The optional value used for tokens: `None` stands for end of input. */
module Wrappers {

  datatype Option<+T> = None | Some(value: T)
}
