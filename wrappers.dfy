/** The Option type used wherever the JavaScript source yields NaN, `undefined`
    or 'N/A' instead of a value. */
module Wrappers {

  datatype Option<+T> = None | Some(value: T)

}
