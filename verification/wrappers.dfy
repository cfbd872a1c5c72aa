/** The optional value used wherever the extension returns `undefined`. */
module Wrappers {

  /** `None` stands for JavaScript's `undefined`. */
  datatype Option<+T> = None | Some(value: T)
}
