/** The usual Some/None wrapper; `None` stands for a JavaScript `null`,
    `undefined` or `NaN` wherever the source can produce one. */
module Wrappers {
  datatype Option<+T> = None | Some(value: T)
}
