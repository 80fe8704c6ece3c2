/**
 * The shape shared by both error-handling decorators: a wrapped function is
 * called, it either returns or raises, and the wrapper either hands back a
 * value, ends the process through `raise SystemExit(code)`, or lets an
 * exception escape.
 */
module PyCall {

  datatype Option<+T> = None | Some(value: T)

  /** What one call of the wrapped function did. */
  datatype Attempt<+R, +E> = Ok(value: R) | Raise(exc: E)

  /** How a call of a decorated wrapper ends. */
  datatype Outcome<+R, +E> =
    | Returned(value: R)     // `return response`
    | Exit(code: int)        // `raise SystemExit(code)` from a handler
    | Propagated(exc: E)     // an exception no clause caught, or one raised inside a handler
}
