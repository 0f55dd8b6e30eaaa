/** Optional values, results, and the error values the driver passes back to its callers. */
module Wrappers {

  /** A Go pointer or error that may be nil. */
  datatype Option<+T> = None | Some(value: T)

  /**
   * The errors that can reach a caller of the socket layer: a failure reported by the
   * AT-command transport (opaque here), or the syntax error of `strconv.Atoi`, which
   * carries the name of the function and the text it refused.
   */
  datatype Error =
    | Transport(reason: string)
    | NumSyntax(func: string, num: string)

  /** A Go `(value, error)` pair where exactly one side is meaningful. */
  datatype Result<+T> = Ok(value: T) | Err(error: Error)
}
