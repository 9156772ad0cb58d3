/** The optional value used where the program uses `None` for "nothing found". */
module Wrappers {
  datatype Option<+T> = None | Some(value: T)
}
