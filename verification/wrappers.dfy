/** Values that may be absent: a JSON field or request argument that was not
    sent, or a completion call that raised instead of answering. */
module Optional {

  datatype Option<T> = None | Some(value: T) {

    /** The present value, else `fallback`; `dict.get(key, fallback)`. */
    function GetOr(fallback: T): T {
      if Some? then value else fallback
    }
  }
}
