/** The optional value used for "no winner yet" and "no winning line". */
module Wrappers {
  datatype Option<+T> = None | Some(value: T)
}
