/** An optional value: `None` stands for JavaScript's `undefined` or `NaN` where the model needs one. */
module Wrappers {

  datatype Option<+T> = None | Some(value: T)
}
