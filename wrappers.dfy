/** Failure-carrying values shared by the whole model. */
module Wrappers {

  /** A value that may be absent: Python's `None` or a present value. */
  datatype Option<+T> = None | Some(value: T) {
    /** The value, or `default` when absent (Python's `d.get(key, default)` after the lookup). */
    function GetOr(default: T): T {
      match this
      case Some(v) => v
      case None => default
    }
  }

  /** The outcome of a call that either returns a value or raises. */
  datatype Result<+R, +E> = Success(value: R) | Failure(error: E)

  /** The outcome of a call whose only result is whether it raised. */
  datatype Outcome<+E> = Pass | Fail(error: E)
}

/** The Python exceptions the modelled code raises or lets escape. */
module Exceptions {

  datatype PyError =
      /** Raised by an operation on a value of the wrong type, named here. */
    | TypeError(typeName: string)
    | KeyError(key: string)
    | ValueError(msg: string)
    | AttributeError(msg: string)
      /** Whatever `subprocess.Popen`, `importlib.import_module` or `getattr` raise:
          foreign calls whose exceptions are not modelled in detail. */
    | ForeignError
}
