/** Presence and absence of a value: a JavaScript property that is `undefined` is `None`. */
module Wrappers {

  datatype Option<+T> = None | Some(value: T)
}
