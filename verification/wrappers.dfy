/** The optional value used wherever the Python code returns `None` or a value. */
module Wrappers {

  datatype Option<T> = None | Some(value: T) {
    /** `x or default` / `dict.get(key, default)`. */
    function GetOr(default: T): T {
      if Some? then value else default
    }
  }
}
