/** Optional values, used where the source has a value that may be absent
    (`undefined`/`null` in JavaScript). */
module Wrappers {

  datatype Option<+T> = None | Some(value: T)

}
