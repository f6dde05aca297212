/** Optional values: a JavaScript property that may be absent (`undefined`/`null`), or a
    `parseInt` result that may be `NaN`. */
module Wrappers {

  datatype Option<+T> = None | Some(value: T)
}
