/** Optional values: the model's stand-in for TypeScript's `T | null` and
    for optional record members (`diagnosis?: string`). */
module Wrappers {

  datatype Option<+T> = None | Some(value: T)
}
