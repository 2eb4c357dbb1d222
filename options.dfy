/** An optional value: Python's `Optional[T]`, where `None` is kept apart from any value. */
module Options {

  datatype Option<+T> = None | Some(value: T)

}
