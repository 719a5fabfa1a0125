/** A JavaScript value that may be `null`: `None` is `null`, `Some(v)` is `v`. */
module Optional {
  datatype Option<+T> = None | Some(value: T)
}
