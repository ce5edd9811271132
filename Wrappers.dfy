/** Optional and nullable values, as the store's records use them. */
module Wrappers {

  /** A value that may be missing: an absent property, a map lookup that found nothing. */
  datatype Option<+T> = None | Some(value: T)

  /** A value that may be JSON `null`. A nullable optional property is an Option<Nullable<T>>:
      absent, present and `null` (Nil), or present with a value. */
  datatype Nullable<+T> = Nil | NonNull(value: T)
}
