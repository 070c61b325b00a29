/**
 * The `ApiError` hierarchy of src/utils/api-error.ts as one error datatype.
 * A subclass is an `ErrorClass`; `statusCode` is a function of the class;
 * `Plain` stands for every thrown value that is not an `ApiError`
 * (driver, schema-validation and HTTP-client errors).
 */
module ApiErrors {
  import opened Wrappers

  datatype ErrorClass =
    | Plain
    | Base(code: int)
    | BadRequest
    | Unauthorized
    | Forbidden
    | NotFound
    | Conflict
    | UnprocessableEntity
    | InternalServer
    | ServiceUnavailable
    | RelayerApi(code: int, relayerStatus: int, relayerMessage: string)
    | Validation(validationErrors: map<string, string>)
    | Database

  /** A thrown error: its class, `message`, `isOperational`, and whether it still carries a `stack`. */
  datatype Error = Error(cls: ErrorClass, message: string, isOperational: bool, hasStack: bool)

  /** `err instanceof ApiError`. */
  predicate IsApiError(e: Error) {
    !e.cls.Plain?
  }

  /** `err.statusCode` of an `ApiError`. */
  function StatusCode(e: Error): int
    requires IsApiError(e)
  {
    match e.cls
    case Base(code) => code
    case BadRequest => 400
    case Unauthorized => 401
    case Forbidden => 403
    case NotFound => 404
    case Conflict => 409
    case UnprocessableEntity => 422
    case InternalServer => 500
    case ServiceUnavailable => 503
    case RelayerApi(code, _, _) => code
    case Validation(_) => 422
    case Database => 500
  }

  /** The outcome of an operation that may throw. */
  datatype Result<+T> = Ok(value: T) | Err(error: Error) {
    predicate IsFailure() {
      Err?
    }

    function PropagateFailure<U>(): Result<U>
      requires Err?
    {
      Err(error)
    }

    function Extract(): T
      requires Ok?
    {
      value
    }
  }

  /** A value thrown by code outside the hierarchy (`new Error(message)`). */
  function PlainError(message: string): Error {
    Error(Plain, message, false, true)
  }

  /** `new ApiError(statusCode, message)`: `isOperational` defaults to true and a stack is captured. */
  function NewApiError(statusCode: int, message: string): Error {
    Error(Base(statusCode), message, true, true)
  }

  function Subclass(cls: ErrorClass, message: string): Error {
    Error(cls, message, true, true)
  }

  function BadRequestError(message: Option<string>): Error {
    Subclass(BadRequest, message.GetOr("Bad Request"))
  }

  function UnauthorizedError(message: Option<string>): Error {
    Subclass(Unauthorized, message.GetOr("Unauthorized"))
  }

  function ForbiddenError(message: Option<string>): Error {
    Subclass(Forbidden, message.GetOr("Forbidden"))
  }

  function NotFoundError(message: Option<string>): Error {
    Subclass(NotFound, message.GetOr("Resource Not Found"))
  }

  function ConflictError(message: Option<string>): Error {
    Subclass(Conflict, message.GetOr("Resource Conflict"))
  }

  function UnprocessableEntityError(message: Option<string>): Error {
    Subclass(UnprocessableEntity, message.GetOr("Unprocessable Entity"))
  }

  function InternalServerError(message: Option<string>): Error {
    Subclass(InternalServer, message.GetOr("Internal Server Error"))
  }

  function ServiceUnavailableError(message: Option<string>): Error {
    Subclass(ServiceUnavailable, message.GetOr("Service Unavailable"))
  }

  /** `new RelayerApiError(statusCode, message, relayerStatus, relayerMessage)`. */
  function RelayerApiError(statusCode: int, message: string, relayerStatus: int, relayerMessage: string): Error {
    Subclass(RelayerApi(statusCode, relayerStatus, relayerMessage), message)
  }

  /** `new ValidationError(message, validationErrors = {})`. */
  function ValidationError(message: string, validationErrors: Option<map<string, string>>): Error {
    Subclass(Validation(validationErrors.GetOr(map[])), message)
  }

  function DatabaseError(message: Option<string>): Error {
    Subclass(Database, message.GetOr("Database operation failed"))
  }

  /** Every subclass is an operational `ApiError` with its fixed status code. */
  lemma SubclassStatusCodes(m: Option<string>)
    ensures var all := [BadRequestError(m), UnauthorizedError(m), ForbiddenError(m), NotFoundError(m),
                        ConflictError(m), UnprocessableEntityError(m), InternalServerError(m),
                        ServiceUnavailableError(m), DatabaseError(m)];
            forall i :: 0 <= i < |all| ==> IsApiError(all[i]) && all[i].isOperational
    ensures StatusCode(BadRequestError(m)) == 400
    ensures StatusCode(UnauthorizedError(m)) == 401
    ensures StatusCode(ForbiddenError(m)) == 403
    ensures StatusCode(NotFoundError(m)) == 404
    ensures StatusCode(ConflictError(m)) == 409
    ensures StatusCode(UnprocessableEntityError(m)) == 422
    ensures StatusCode(InternalServerError(m)) == 500
    ensures StatusCode(ServiceUnavailableError(m)) == 503
    ensures StatusCode(DatabaseError(m)) == 500
  {
  }

  /** An omitted message takes the class default; a given one is kept. */
  lemma DefaultMessages(m: string)
    ensures BadRequestError(None).message == "Bad Request"
    ensures UnauthorizedError(None).message == "Unauthorized"
    ensures ForbiddenError(None).message == "Forbidden"
    ensures NotFoundError(None).message == "Resource Not Found"
    ensures ConflictError(None).message == "Resource Conflict"
    ensures UnprocessableEntityError(None).message == "Unprocessable Entity"
    ensures InternalServerError(None).message == "Internal Server Error"
    ensures ServiceUnavailableError(None).message == "Service Unavailable"
    ensures DatabaseError(None).message == "Database operation failed"
    ensures var given := [BadRequestError(Some(m)), UnauthorizedError(Some(m)), ForbiddenError(Some(m)),
                          NotFoundError(Some(m)), ConflictError(Some(m)), UnprocessableEntityError(Some(m)),
                          InternalServerError(Some(m)), ServiceUnavailableError(Some(m)), DatabaseError(Some(m))];
            forall i :: 0 <= i < |given| ==> given[i].message == m
  {
  }

  /** A relay error keeps the status code it was given and carries the relay's own status and message. */
  lemma RelayerApiErrorFields(code: int, message: string, rs: int, rm: string)
    ensures var e := RelayerApiError(code, message, rs, rm);
            IsApiError(e) && StatusCode(e) == code && e.message == message &&
            e.cls.relayerStatus == rs && e.cls.relayerMessage == rm
  {
  }

  /** A validation error is a 422 whose field errors default to none. */
  lemma ValidationErrorDefaults(message: string)
    ensures var e := ValidationError(message, None);
            StatusCode(e) == 422 && e.cls.validationErrors == map[]
  {
  }
}
