/** Python's exceptions as values, and the success/failure wrappers the model returns them in. */
module Outcomes {

  /** An exception raised somewhere in the system.  `SensorException` is the project's own
      exception type; every component wraps what it catches in one, so a failure that crosses
      several `try`/`except` blocks is a chain of them around the original exception. */
  datatype Error =
    | Exception(message: string)
    | KeyError(keys: seq<string>)
    | ValueError(message: string)
    | IndexError(message: string)
    | AttributeError(message: string)
    | NameError(name: string)
    | SensorException(cause: Error)

  /** The value a Python function returns, or the exception it raises. */
  datatype Result<+T> = Success(value: T) | Failure(error: Error)

  /** The outcome of a Python function that returns `None` when it succeeds. */
  datatype Outcome = Pass | Fail(error: Error)

  datatype Option<+T> = None | Some(value: T)

  /** What `except Exception as e: raise SensorException(e, sys)` does to a result. */
  function Wrap<T>(r: Result<T>): (w: Result<T>)
    ensures w.Success? <==> r.Success?
    ensures r.Success? ==> w.value == r.value
    ensures r.Failure? ==> w.error.SensorException? && w.error.cause == r.error
  {
    match r
    case Success(v) => Success(v)
    case Failure(e) => Failure(SensorException(e))
  }
}
