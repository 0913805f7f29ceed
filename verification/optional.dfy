/** A value that may be missing: a dictionary key that is not set, an attribute an
    object lacks, or Python's `None`. */
module Optional {

  datatype Option<+T> = None | Some(value: T) {

    /** `dict.get(key, default)`: the value when there is one, `default` otherwise. */
    function GetOr(default: T): T
    {
      if Some? then value else default
    }
  }
}
