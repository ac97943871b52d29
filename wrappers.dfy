/** The "maybe absent" value used throughout the model. In the dashboard a
    value can be missing in several ways (a JavaScript hole, `undefined`,
    `null`); all of them are `None` here. */
module Wrappers {

  datatype Option<+T> = None | Some(value: T)
}
