/** Small shared datatypes. */
module Common {

  /** A value that may be absent: JavaScript's `null`/`undefined` in the fetched records. */
  datatype Option<T> = None | Some(value: T)
}
