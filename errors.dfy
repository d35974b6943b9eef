/**
 * The service's five exception classes: each has a fixed HTTP status and
 * stores the message it was constructed with.
 */
module Errors {

  /** One exception class per kind. */
  datatype ErrorKind =
    | Forbidden         // OrodhaForbiddenError
    | NotificationType  // NotificationTypeError
    | BadRequest        // OrodhaBadRequestError
    | NotFound          // OrodhaNotFoundError
    | Internal          // OrodhaInternalError

  /** A raised exception: its class and the message given to its constructor. */
  datatype Error = Error(kind: ErrorKind, message: string) {
    /** The class-level `status_code` of the exception. */
    function Status(): int { StatusCode(kind) }
  }

  /** The message an OrodhaForbiddenError carries when it is built without one. */
  const DefaultForbiddenMessage := "You don't have permission to access this resource"

  /** `HTTPStatus` value of each exception class. */
  function StatusCode(k: ErrorKind): (s: int)
    ensures 400 <= s < 600
    ensures s >= 500 <==> k == Internal
    ensures s == 404 <==> k == NotFound
  {
    match k
    case Forbidden => 403
    case NotificationType => 400
    case BadRequest => 400
    case NotFound => 404
    case Internal => 500
  }

  /** `OrodhaForbiddenError()`: the forbidden error with its default message. */
  function ForbiddenError(): (e: Error)
    ensures e.kind == Forbidden && e.Status() == 403
    ensures e.message == DefaultForbiddenMessage
  {
    Error(Forbidden, DefaultForbiddenMessage)
  }

  /** The status table of the five exception classes, exactly. */
  lemma StatusTable()
    ensures StatusCode(Forbidden) == 403
    ensures StatusCode(NotificationType) == 400
    ensures StatusCode(BadRequest) == 400
    ensures StatusCode(NotFound) == 404
    ensures StatusCode(Internal) == 500
  {
  }

  /** Whatever message an exception is built with is the message it carries. */
  lemma MessageIsConstructorArgument(k: ErrorKind, message: string)
    ensures Error(k, message).message == message
    ensures Error(k, message).Status() == StatusCode(k)
  {
  }
}
