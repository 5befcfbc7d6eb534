/** An optional value: stands for JavaScript's `null`/`undefined` where the source checks for it. */
module Wrappers {

  datatype Option<+T> = None | Some(value: T)

}
