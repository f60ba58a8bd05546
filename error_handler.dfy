/** The last-resort error handler: it turns an error thrown anywhere in a
    request into a status code and a uniform JSON body. */
module ErrorHandling {
  import opened Wrappers

  /** The error classes the backend defines; anything else is `Other`. */
  datatype ErrorClass = ValidationError | AuthenticationError | AuthorizationError | NotFoundError | Other

  /** A thrown error: its class, `name`, `message` and `stack`. */
  datatype AppError = AppError(kind: ErrorClass, name: string, message: string, stack: Option<string>)

  /** The errors the custom classes' constructors build: their `name` is the
      class name. */
  function NewError(kind: ErrorClass, message: string, stack: Option<string>): (e: AppError)
    requires kind != Other
  {
    var name := match kind
      case ValidationError => "ValidationError"
      case AuthenticationError => "AuthenticationError"
      case AuthorizationError => "AuthorizationError"
      case NotFoundError => "NotFoundError";
    AppError(kind, name, message, stack)
  }

  datatype ErrorBody = ErrorBody(status: int, error: string, message: string, details: Option<string>)

  datatype Handled = Handled(status: int, body: ErrorBody)

  const InternalErrorMessage := "Internal server error"
  const AuthenticationFailedMessage := "Authentication failed"
  const AccessDeniedMessage := "Access denied"
  const ResourceNotFoundMessage := "Resource not found"

  /** `message || fallback`. */
  function OrDefault(message: string, fallback: string): string {
    if message != "" then message else fallback
  }

  /** `errorHandler`: the status by class (400, 401, 403, 404, else 500), the
      message with each class's default, and the stack only in development.
      The body repeats the status and carries the error's name. */
  function Handle(err: AppError, nodeEnv: Option<string>): (r: Handled)
    ensures r.body.status == r.status && r.body.error == err.name
    ensures r.status == match err.kind
      case ValidationError => 400
      case AuthenticationError => 401
      case AuthorizationError => 403
      case NotFoundError => 404
      case Other => 500
    ensures err.message != "" ==> r.body.message == err.message
    ensures err.message == "" ==> r.body.message == match err.kind
      case ValidationError => ""
      case AuthenticationError => AuthenticationFailedMessage
      case AuthorizationError => AccessDeniedMessage
      case NotFoundError => ResourceNotFoundMessage
      case Other => InternalErrorMessage
    ensures r.body.details == if nodeEnv == Some("development") then err.stack else None
  {
    var (status, message) :=
      match err.kind
      case ValidationError => (400, err.message)
      case AuthenticationError => (401, OrDefault(err.message, AuthenticationFailedMessage))
      case AuthorizationError => (403, OrDefault(err.message, AccessDeniedMessage))
      case NotFoundError => (404, OrDefault(err.message, ResourceNotFoundMessage))
      case Other => (500, OrDefault(err.message, InternalErrorMessage));
    Handled(status, ErrorBody(status, err.name, message, if nodeEnv == Some("development") then err.stack else None))
  }

  /** The only way to get an empty message back is a validation error thrown
      with an empty message: that class alone has no default. */
  lemma EmptyMessageOnlyFromValidation(err: AppError, nodeEnv: Option<string>)
    ensures Handle(err, nodeEnv).body.message == "" <==> err.kind == ValidationError && err.message == ""
  {
  }

  /** A server error (500) is exactly an error of none of the four classes. */
  lemma ServerErrorOnlyForOthers(err: AppError, nodeEnv: Option<string>)
    ensures Handle(err, nodeEnv).status == 500 <==> err.kind == Other
    ensures 400 <= Handle(err, nodeEnv).status < 600
  {
  }
}
