/** Java's nullable references, made explicit: `None` stands for `null`. */
module Wrappers {

  datatype Option<+T> = None | Some(value: T)
}
