/** Values shared by every part of the model: optional values, results with an
    error, the Python exceptions the engine can raise, and what a subprocess
    call hands back to the engine. */
module Outcomes {

  datatype Option<+T> = None | Some(value: T)

  datatype Result<+T, +E> = Success(value: T) | Failure(error: E)

  /** The exceptions the modelled Python code can raise. */
  datatype Error =
    | KeyError(key: string)            // `d[key]` on a dict without `key`
    | ValueError(text: string)         // `int(text, 16)` on a text that is not hexadecimal
    | UnboundLocalError(name: string)  // a local read before any assignment

  /** What `subprocess.run(..., timeout=t)` gives back: the exit code and the
      captured standard output, or the `TimeoutExpired` exception. */
  datatype ProcResult = Exited(code: int, stdout: string) | TimedOut

  /** A subprocess call succeeded: it finished in time with exit code 0. */
  predicate Succeeded(res: ProcResult) {
    res.Exited? && res.code == 0
  }
}
