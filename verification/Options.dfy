/** A value that may be missing: a Go error return, a nil map, an absent precomputed table. */
module Options {

  datatype Option<T> = None | Some(value: T)
}
