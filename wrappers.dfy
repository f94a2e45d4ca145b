/** Optional values: `None` stands where the source would produce an
    undefined floating-point value (NaN or infinity) or no value at all. */
module Wrappers {
  datatype Option<+T> = None | Some(value: T)
}
