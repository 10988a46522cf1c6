/** The two error-carrying wrappers every other module shares. */
module Base {

  /** A value that may be absent, as Python's `None`. */
  datatype Option<T> = None | Some(value: T)

  /** A computation that either produced a value or raised an error with a message. */
  datatype Result<T> = Ok(value: T) | Err(error: string)

  /** `d.get(k, default)` on a dictionary of strings. */
  function GetOr(d: map<string, string>, k: string, default: string): string
  {
    if k in d then d[k] else default
  }
}
