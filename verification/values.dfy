/** Python-level values the grading script and the candidates exchange: float values
    (with NaN and the infinities), the exceptions they raise, and the
    value-or-exception result of a call. */
module Values {

  /** A Python float: a finite number, an infinity, or NaN. Rounding is not
      modelled: finite floats are exact reals. */
  datatype FloatVal = Finite(r: real) | Infinite(positive: bool) | NaN

  /** The kinds of exception the grading script distinguishes. `OtherError`
      is any other subclass of `Exception`. `SystemExit(code)` is what
      `sys.exit` raises; it derives from `BaseException` only, so
      `except Exception` does not catch it. `sys.exit()` and
      `sys.exit(None)` raise `SystemExit(0)`, and a non-integer argument
      ends the process with status 1, so it is `SystemExit(1)` here. */
  datatype ExcKind = ValueError | OverflowError | OtherError(name: string) | SystemExit(code: int)

  /** Whether an exception kind derives from `Exception`. */
  predicate IsException(k: ExcKind)
  {
    !k.SystemExit?
  }

  /** A call that either returns a value or raises an exception. */
  datatype Result<R> = Ok(value: R) | Raise(exc: ExcKind)

  datatype Option<R> = None | Some(value: R)
}
