/** The optional value used wherever SkCachingPixelRef passes a pointer that may be null. */
module Wrappers {
  datatype Option<+T> = None | Some(value: T)
}
