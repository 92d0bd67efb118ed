/** Swift optionals (`T?`) as a value type. */
module Optional {

  datatype Option<+T> = None | Some(value: T)
}
