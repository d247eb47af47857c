/** Optional values: a stored role that may be missing (`string | null`) and
    a `allowedRoles` prop that may be left out (`string[] | undefined`). */
module Wrappers {

  datatype Option<+T> = None | Some(value: T)
}
