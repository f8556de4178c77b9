/**
 * The error middleware (errorHandler.middleware.js): the `ApiError` class and
 * the if-chain that turns any thrown error into an HTTP status and message.
 */
module ErrorHandler {
  import opened Wrappers

  /** One entry of a Sequelize `ValidationError`'s `errors` list. */
  datatype FieldError = FieldError(path: string, message: string)

  /**
   * A thrown JavaScript error, reduced to what the middleware inspects.
   * `statusCode == 0` stands for a falsy or missing `statusCode` property.
   */
  datatype Thrown = Thrown(
    isValidationError: bool,   // `err instanceof ValidationError`
    name: string,              // `err.name`
    isApiError: bool,          // `err.isApiError`
    statusCode: int,
    message: string,
    errors: seq<FieldError>)

  /** What the middleware sends: the status, the `message` field, and the `errors` list. */
  datatype Response = Response(status: int, message: string, errors: seq<FieldError>)

  const ValidationMessage := "Validation error"
  const InvalidTokenMessage := "Invalid token"
  const TokenExpiredMessage := "Token expired"
  const InternalMessage := "Internal server error"

  /**
   * `new ApiError(message, statusCode = 500)`: the status defaults to 500
   * only when the argument is omitted; the flag is always set.
   */
  function NewApiError(message: string, statusCode: Option<int>): (e: Thrown)
    ensures e.isApiError && !e.isValidationError && e.name == "Error"
    ensures e.message == message && e.errors == []
    ensures statusCode.None? ==> e.statusCode == 500
    ensures statusCode.Some? ==> e.statusCode == statusCode.value
  {
    Thrown(false, "Error", true, if statusCode.Some? then statusCode.value else 500, message, [])
  }

  /** The usual call shape `new ApiError(message, code)`. */
  function ApiError(message: string, code: int): Thrown
  {
    NewApiError(message, Some(code))
  }

  /** A Sequelize `ValidationError` raised by `save` or `create` when a column validator fails. */
  function SequelizeValidationError(errors: seq<FieldError>): Thrown
  {
    Thrown(true, "SequelizeValidationError", false, 0, "Validation error", errors)
  }

  /** An error raised by a collaborator outside the model (a mail or SMS client, the database). */
  function ExternalError(message: string): Thrown
  {
    Thrown(false, "Error", false, 0, message, [])
  }

  /** The middleware's dispatch, in its order; `production` is `NODE_ENV === "production"`. */
  function Handle(err: Thrown, production: bool): Response
  {
    if err.isValidationError then Response(400, ValidationMessage, err.errors)
    else if err.name == "JsonWebTokenError" then Response(401, InvalidTokenMessage, [])
    else if err.name == "TokenExpiredError" then Response(401, TokenExpiredMessage, [])
    else if err.isApiError then Response(if err.statusCode != 0 then err.statusCode else 500, err.message, [])
    else Response(500, if production then InternalMessage else err.message, [])
  }

  /** A validation error wins over every other class, whatever else it carries. */
  lemma ValidationFirst(err: Thrown, production: bool)
    requires err.isValidationError
    ensures Handle(err, production).status == 400
    ensures Handle(err, production).message == ValidationMessage
    ensures Handle(err, production).errors == err.errors
  {
  }

  /** Both JWT failures are 401 with their own message, unless the error is also a validation error. */
  lemma JwtErrors(err: Thrown, production: bool)
    requires !err.isValidationError
    ensures err.name == "JsonWebTokenError" ==> Handle(err, production) == Response(401, InvalidTokenMessage, [])
    ensures err.name == "TokenExpiredError" ==> Handle(err, production) == Response(401, TokenExpiredMessage, [])
  {
  }

  /** The status is always one of 400, 401, 500 or an ApiError's own non-zero code. */
  lemma StatusClasses(err: Thrown, production: bool)
    ensures var s := Handle(err, production).status;
      s == 400 || s == 401 || s == 500 || (err.isApiError && s == err.statusCode && s != 0)
  {
  }

  /** An ApiError built with an explicit non-zero code answers with that code and its message. */
  lemma ApiErrorRoundTrip(message: string, code: int, production: bool)
    requires code != 0
    ensures Handle(ApiError(message, code), production) == Response(code, message, [])
  {
  }

  /** An ApiError built without a code, or with code 0, answers 500 with its own message. */
  lemma ApiErrorDefaultStatus(message: string, code: Option<int>, production: bool)
    requires code.None? || code.value == 0
    ensures Handle(NewApiError(message, code), production) == Response(500, message, [])
  {
  }

  /** In production an unclassified error's message is hidden; elsewhere it is passed through. */
  lemma GenericErrorMessage(err: Thrown, production: bool)
    requires !err.isValidationError && !err.isApiError
    requires err.name != "JsonWebTokenError" && err.name != "TokenExpiredError"
    ensures Handle(err, production).status == 500
    ensures Handle(err, production).message == if production then InternalMessage else err.message
  {
  }
}
