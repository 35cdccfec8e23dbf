/** A value that may be absent, standing for Python's `Optional[...]` and `None`. */
module Optional {

  datatype Option<T> = None | Some(value: T) {

    /** The wrapped value, or `default` when absent. */
    function GetOr(default: T): T
    {
      if Some? then value else default
    }
  }
}
