/**
 * The exception values of the health-check library.
 *
 * `HealthCheckException` and its subclasses are domain errors: a probe raises or
 * records them for an expected failure of the dependency it checks. `Failure` is
 * the Python error a configuration step raises to its caller.
 */
module Exceptions {

  /** The class of a domain error: `HealthCheckException` or one of its subclasses. */
  datatype ExceptionKind =
    | HealthCheckException
    | ServiceWarning
    | ServiceUnavailable
    | ServiceReturnedUnexpectedResult

  /** A domain error; `message` is what `str(error)` renders. */
  datatype HealthCheckError = HealthCheckError(kind: ExceptionKind, message: string)

  /** `[str(err) for err in errors]`: the messages, in order. */
  function Messages(errors: seq<HealthCheckError>): (ms: seq<string>)
    ensures |ms| == |errors|
    ensures forall i :: 0 <= i < |errors| ==> ms[i] == errors[i].message
  {
    if errors == [] then [] else [errors[0].message] + Messages(errors[1..])
  }

  /** Why binding `Class(**options)` raised `TypeError`. */
  datatype TypeErrorCause =
    | UnexpectedKeyword
    | MissingArgument(parameter: string)

  /** Errors raised while settings are read and services are built. */
  datatype Failure =
    | KeyError(key: string)
    | ValueError(message: string)
    | TypeError(cause: TypeErrorCause)
}
