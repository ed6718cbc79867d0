/** Option and Result values: a Java `null` becomes `None`, and a fatal
    log-and-abort (`MTLog.Fatal`, `System.exit(-1)`) becomes `Failure`. */
module Wrappers {

  datatype Option<+T> = None | Some(value: T)

  datatype Result<+R, +E> = Success(value: R) | Failure(error: E)
}
