/** The "undefined" sentinel: the simulator writes NaN where a statistic has
    no value yet; here that is None. */
module Wrappers {

  datatype Option<+T> = None | Some(value: T)
}
