/** Optional values, used for JavaScript's `null` / `undefined` results
    (a missing query parameter, `Array.prototype.find` finding nothing,
    a redirect without a `callbackUrl`). */
module Wrappers {

  datatype Option<+T> = None | Some(value: T)
}
