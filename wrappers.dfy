/** Optional values, used for the regex capture that may be missing and for
    `parseInt` results that may be NaN. */
module Wrappers {

  datatype Option<+T> = None | Some(value: T)
}
