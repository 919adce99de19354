/** The optional-value type shared by the store and the service-worker model.
    It stands for TypeScript's `T | null` and for a cache lookup that may miss. */
module Wrappers {

  datatype Option<+T> = None | Some(value: T)
}
