/** The optional value used wherever the JavaScript code works with a value
    that may be `undefined` or `null` (the result of `find`, `assignedTo`). */
module Wrappers {

  datatype Option<+T> = None | Some(value: T)
}
