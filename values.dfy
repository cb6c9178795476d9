/** Values that cross the scheduler's boundary: what task bodies return and
    yield, the runtime faults the engine reports, and the exceptions that
    leave a turn or a run. */
module Values {

  datatype Option<+T> = None | Some(value: T)

  /** A PHP `mixed` value, as far as the scheduler passes one around. */
  datatype Value = Null | Bool(b: bool) | Int(i: int) | Str(s: string)

  /** A runtime-level fault raised by the engine while a task body runs
      (the four arguments PHP gives to an error handler). */
  datatype RuntimeError = RuntimeError(code: int, message: string, file: string, line: int)

  /** Every exception that can leave a task's turn. */
  datatype Thrown =
    | MaxTries(message: string)                                      // TaskMaxTriesException
    | Execution(code: int, message: string, file: string, line: int) // TaskExecutionException
    | TaskCode(message: string)                                      // thrown by task body logic
    | FiberReturnError                                               // getReturn() on a fiber that threw
    | ArgumentUnpackError                                            // positional after named in start(...)

  /** TaskExecutionException built from an intercepted runtime fault. */
  function ExecutionFault(e: RuntimeError): Thrown {
    Execution(e.code, e.message, e.file, e.line)
  }

  /** How a call returns: normally with a value, or by throwing. */
  datatype Outcome = Returned(value: Value) | Raised(thrown: Thrown)

  datatype Result<+R> = Ok(value: R) | Err(thrown: Thrown)
}
