/** Option: a value that may be missing (JavaScript's null from the browser store). */
module Wrappers {

  datatype Option<+T> = None | Some(value: T)
}
