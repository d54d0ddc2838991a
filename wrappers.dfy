/** The JavaScript `null` / `NaN` results of the calculators, as an option type. */
module Wrappers {

  datatype Option<+T> = None | Some(value: T)
}
