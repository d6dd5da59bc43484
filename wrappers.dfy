/** The optional-value datatype used throughout the model. */
module Wrappers {
  datatype Option<+T> = None | Some(value: T)

  /** The value of an optional argument, or `default` when the caller left it out
      (a JavaScript default parameter). */
  function Or<T>(arg: Option<T>, default: T): T
  {
    match arg
    case Some(v) => v
    case None => default
  }
}
