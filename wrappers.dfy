/** Optional values and the errors the plugin can raise. */
module Wrappers {

  /** A value that may be absent, like a key that a Python dict may lack. */
  datatype Option<T> = None | Some(value: T) {

    /** Python's `d.get(key, default)`: the value if present, else `default`. */
    function GetOr(default: T): (r: T)
      ensures Some? ==> r == value
      ensures None? ==> r == default
    {
      match this
      case Some(v) => v
      case None => default
    }
  }

  /** The exceptions that escape the plugin's functions. */
  datatype Error =
    | KeyError(key: string)               // a dict lookup `d[key]` on a missing key
    | CalledProcessError(returncode: int) // `subprocess.run(..., check=True)` saw a non-zero exit

  /** Either the value a Python function returns or the exception it raises. */
  datatype Result<T> = Ok(value: T) | Err(error: Error)
}
