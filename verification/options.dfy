/** Optional values: the model's stand-in for Python's `None`. */
module Options {

  /** Either no value (`None`) or exactly one value. */
  datatype Option<+T> = None | Some(value: T)
}
