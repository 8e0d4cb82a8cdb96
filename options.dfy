/** The optional value used across the models: `None` stands for Python's
    `None`, or for an exception where a function's doc comment says so. */
module Options {
  datatype Option<T> = None | Some(value: T)
}
