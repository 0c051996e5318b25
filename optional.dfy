/** An optional value: a TypeScript field declared with `?`, or a value that may be `null`. */
module Optional {

  datatype Option<+T> = None | Some(value: T)
}
