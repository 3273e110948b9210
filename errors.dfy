/** Exceptions of the simulator framework, and the result types that carry
    them in place of a C++ `throw`. */
module Errors {

  /** One constructor per exception class the core throws. The standard
      library exceptions keep their `what()` message. */
  datatype Error =
    | InvalidArgument(what: string)       // std::invalid_argument
    | RuntimeError(what: string)          // std::runtime_error
    | OutOfRange(what: string)            // std::out_of_range
    | BadCast                             // std::bad_cast (from cast_string)
    | IncompatibleObservable
    | NotCompositeSimulateModel
    | IncompatibleSubmodel
    | MissingDistribution(name: string)
    | NoSubmodels
    | NoObservables

  datatype Option<+T> = None | Some(value: T)

  /** The value of a call that either returns or throws. */
  datatype Result<+T> = Ok(value: T) | Err(error: Error)

  /** The outcome of a `void` call that may throw. */
  datatype Outcome = Pass | Fail(error: Error)
}
