/** An optional value: the model's stand-in for a JavaScript lookup that may give
    `undefined` or `null`. */
module Optional {
  datatype Option<+T> = None | Some(value: T)
}
