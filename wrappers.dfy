/** The usual Option type: `None` stands for JavaScript's `null` where the
    bootstrap script distinguishes "nothing" from a value. */
module Wrappers {

  datatype Option<+T> = None | Some(value: T)

}
