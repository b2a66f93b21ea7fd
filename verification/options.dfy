/** The Some/None datatype used wherever the C code has a pointer that may be NULL
    (a path argument, the value of getenv). */
module Options {

  datatype Option<+T> = None | Some(value: T) {

    /** The carried value, or `default` when there is none. */
    function GetOr(default: T): T
    {
      match this
      case Some(v) => v
      case None => default
    }
  }
}
