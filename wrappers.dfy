/** The optional value used for "absent" (no store file, no winner, no error). */
module Wrappers {

  datatype Option<+T> = None | Some(value: T)
}
