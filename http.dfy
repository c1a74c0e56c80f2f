/** The values that cross the backend's HTTP boundary: the application
    error (utils/AppError.js, whose file is not part of this model: it is
    used here as a record of message, status code and error code), requests
    as the middleware sees them, and the JSON responses the core sends. */
module Http {
  import opened Common

  /** An `AppError`. A falsy field (undefined, 0 or the empty string) is
      written 0 or "": the error handler treats them alike. */
  datatype AppError = AppError(message: string, statusCode: int, errorCode: string)

  /** The claims of a verified session token, as `jwt.verify` returns them:
      the signed `{id, email}` plus the `iat` and `exp` times in seconds. */
  datatype Claims = Claims(id: int, email: string, iat: int, exp: int)

  /** The public view of an identity: never the password hash. */
  datatype PublicUser = PublicUser(id: int, email: string)

  datatype FieldError = FieldError(field: string, message: string)

  /** The `token` cookie a response sets or clears. */
  datatype CookieAction = NoCookie | SetToken(token: string, maxAgeMs: nat, secure: bool) | ClearToken

  datatype Body =
    | ErrorBody(error: string, statusCode: int, errorCode: string, stack: Option<string>)
    | LimitBody(error: string, statusCode: int)
    | ValidationBody(error: string, details: seq<FieldError>)
    | RegisteredBody(message: string, userId: int)
    | LoggedInBody(message: string, token: string, user: PublicUser)
    | LoggedOutBody(message: string)
    | CurrentUserBody(user: PublicUser)

  datatype Response = Response(status: int, body: Body, cookie: CookieAction)

  /** A request as the route's middleware sees it: the JSON body's email and
      password, the client address, the `token` cookie, the `Authorization`
      header, `req.user` once authenticated, and the validation errors
      express-validator has collected so far. */
  datatype Request = Request(
    email: Option<string>,
    password: Option<string>,
    ip: string,
    cookieToken: Option<string>,
    authorization: Option<string>,
    user: Option<Claims>,
    validationErrors: seq<FieldError>)

  /** What a controller or middleware hands on: a response it sent itself,
      or an error passed to `next(err)` for the error handler. */
  type Outcome = Result<Response, AppError>

  /** What a `catch` block received: an `AppError`, or any other exception
      (a database, bcrypt or runtime failure). */
  datatype Thrown = Thrown(app: AppError) | Foreign

  /** The controllers' catch blocks: an `AppError` goes to `next` unchanged,
      anything else becomes a 500 error with the controller's own message. */
  function Caught(t: Thrown, fallback: string): (e: AppError)
    ensures t.Thrown? ==> e == t.app
    ensures t.Foreign? ==> e.statusCode == 500 && e.message == fallback && e.errorCode == ""
  {
    match t
    case Thrown(app) => app
    case Foreign => AppError(fallback, 500, "")
  }
}
