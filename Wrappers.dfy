/** Optional values, used wherever the TypeScript code has `T | null` or an optional field. */
module Wrappers {

  datatype Option<+T> = None | Some(value: T)
}
