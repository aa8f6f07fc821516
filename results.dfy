/** Values standing for Python's None, its exceptions, and the way a try/finally
    block decides which exception escapes. */
module Results {

  /** Python's optional value: a reference that may be None. */
  datatype Option<+T> = None | Some(value: T)

  /** Python truthiness of an optional string: neither None nor empty. */
  predicate Truthy(s: Option<string>)
  {
    s.Some? && s.value != ""
  }

  /** The exceptions the installer raises, catches or lets through. */
  datatype Exn =
    | ValueError(msg: string)
    | UnboundLocalError(variable: string)
    | OtherError(name: string, msg: string)

  /** `str(e)` for an exception. */
  function ExnText(e: Exn): string
  {
    match e
    case ValueError(m) => m
    case UnboundLocalError(v) => "local variable '" + v + "' referenced before assignment"
    case OtherError(_, m) => m
  }

  /** A call that returns a value or raises. */
  datatype Result<+T> = Ok(value: T) | Err(exn: Exn)

  /** A call that returns nothing or raises. */
  datatype Outcome = Pass | Fail(exn: Exn)

  /** The exception that leaves `try: body finally: cleanup`: one raised by the
      cleanup replaces whatever the body raised. */
  function Finally(body: Outcome, cleanup: Outcome): Outcome
  {
    if cleanup.Fail? then cleanup else body
  }
}
