/** Optional values: an entity that may be absent from the store, a
    contract read that may have reverted, a reference field left unset. */
module Wrappers {

  datatype Option<+T> = None | Some(value: T)

}
