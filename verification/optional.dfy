/** A value that may be absent: the model of a TypeScript `T | undefined`. */
module Optional {
  datatype Option<T> = None | Some(value: T)
}
