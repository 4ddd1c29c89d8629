/**
 * Values shared by every modelled component: optional values, results of
 * operations that can fail, the kinds of error the provider returns, and the
 * reply of a remote Azure call.
 */
module Common {

  datatype Option<T> = None | Some(value: T)

  /** The kinds of error the provider's operations report. */
  datatype Error =
    | MalformedId(detail: string)          // an ID that does not have the expected shape
    | MissingSegment(key: string)          // a required `/key/value` pair is absent or empty
    | ExtraSegments                        // pairs remain after every expected one was taken
    | AlreadyExists(id: string)            // the import-as-exists error of the plugin SDK
    | Missing(what: string)                // a remote object or one of its fields was absent
    | Remote(status: int, message: string) // a remote call failed
    | WaitFailed(phase: string)            // a state-change wait did not converge
    | Invalid(detail: string)              // a configuration or validation error
    | NilDereference(what: string)         // the source dereferences a nil pointer here (a Go panic)
    | OutOfRange(what: string)             // the source indexes past the end of a slice here (a Go panic)

  datatype Result<T> = Ok(value: T) | Err(error: Error)
  {
    predicate IsFailure() { Err? }

    function PropagateFailure<U>(): Result<U>
      requires Err?
    {
      Err(error)
    }

    function Extract(): T
      requires Ok?
    {
      value
    }
  }

  /** The HTTP status Azure uses to say that an object does not exist. */
  const NotFoundStatus: int := 404

  /** The HTTP status of a request the caller lacks permission for. */
  const ForbiddenStatus: int := 403

  /**
   * The outcome of one remote call: the object it returned, or the status and
   * text of the error it failed with.
   */
  datatype Reply<T> = Success(body: T) | Failure(status: int, message: string)
  {
    /** The provider's "response was not found" test. */
    predicate WasNotFound() { Failure? && status == NotFoundStatus }

    /** The provider's "response was forbidden" test. */
    predicate WasForbidden() { Failure? && status == ForbiddenStatus }

    /** The error a caller propagates when the reply failed. */
    function AsError(): Error
      requires Failure?
    {
      Remote(status, message)
    }
  }
}
