/** An optional value, standing for a JavaScript result that may be `undefined`. */
module Optional {
  datatype Option<T> = None | Some(value: T)
}
