/** The backend's last middleware (backend/middleware/errorHandler.js): it
    fills in the missing fields of the error it receives, logs it at a level
    chosen by its status, and sends it as JSON with that status. */
module ErrorHandler {
  import opened Common
  import opened Http
  import Config

  const DefaultStatus := 500
  const DefaultMessage := "Internal Server Error"
  const DefaultErrorCode := "INTERNAL_ERROR"

  /** `err.x = err.x || default` for the three fields: a falsy field takes
      its default and a truthy one is kept. */
  function Normalize(e: AppError): (n: AppError)
    ensures n.statusCode != 0 && n.message != "" && n.errorCode != ""
    ensures e.statusCode != 0 ==> n.statusCode == e.statusCode
    ensures e.message != "" ==> n.message == e.message
    ensures e.errorCode != "" ==> n.errorCode == e.errorCode
    ensures e.statusCode == 0 ==> n.statusCode == DefaultStatus
    ensures e.message == "" ==> n.message == DefaultMessage
    ensures e.errorCode == "" ==> n.errorCode == DefaultErrorCode
  {
    AppError(
      if e.message != "" then e.message else DefaultMessage,
      if e.statusCode != 0 then e.statusCode else DefaultStatus,
      if e.errorCode != "" then e.errorCode else DefaultErrorCode)
  }

  /** Normalising an already normalised error changes nothing. */
  lemma NormalizeIdempotent(e: AppError)
    ensures Normalize(Normalize(e)) == Normalize(e)
  {
  }

  datatype Level = ErrorLevel | WarnLevel

  /** The request fields the log entry can carry. */
  datatype RequestInfo = RequestInfo(path: string, httpMethod: string, ip: string)

  /** One call of `logger.error` or `logger.warn`: its level, its text and
      the metadata object passed with it. */
  datatype LogRecord = LogRecord(
    level: Level,
    text: string,
    message: string,
    statusCode: int,
    errorCode: string,
    stack: Option<string>,
    path: string,
    httpMethod: Option<string>,
    ip: Option<string>)

  /** A server error is logged at error level with its stack, path, method
      and client address; any other status at warn level with the path only. */
  function LogFor(n: AppError, stack: string, req: RequestInfo): (l: LogRecord)
    ensures l.level == ErrorLevel <==> n.statusCode == 500
    ensures l.stack.Some? <==> n.statusCode == 500
    ensures l.httpMethod.Some? <==> n.statusCode == 500
    ensures l.ip.Some? <==> n.statusCode == 500
    ensures l.stack.Some? ==> l.stack.value == stack
    ensures l.path == req.path && l.message == n.message
    ensures l.statusCode == n.statusCode && l.errorCode == n.errorCode
  {
    if n.statusCode == 500 then
      LogRecord(ErrorLevel, "Application error", n.message, n.statusCode, n.errorCode,
                Some(stack), req.path, Some(req.httpMethod), Some(req.ip))
    else
      LogRecord(WarnLevel, "Client error", n.message, n.statusCode, n.errorCode,
                None, req.path, None, None)
  }

  /** The JSON response. The stack is included only when the process
      environment's NODE_ENV is literally "development"; the handler reads
      `process.env` directly, not the configuration record. */
  function Respond(n: AppError, stack: string, rawNodeEnv: Option<string>): (r: Response)
    ensures r.status == n.statusCode && r.cookie == NoCookie
    ensures r.body.ErrorBody?
    ensures r.body.error == n.message && r.body.statusCode == n.statusCode && r.body.errorCode == n.errorCode
    ensures r.body.stack.Some? <==> rawNodeEnv == Some("development")
    ensures r.body.stack.Some? ==> r.body.stack.value == stack
  {
    Response(n.statusCode,
             ErrorBody(n.message, n.statusCode, n.errorCode,
                       if rawNodeEnv == Some("development") then Some(stack) else None),
             NoCookie)
  }

  /** The whole handler on an error value: normalise, then log and respond. */
  function Handle(e: AppError, stack: string, req: RequestInfo, rawNodeEnv: Option<string>): (r: (Response, LogRecord))
    ensures r.0.status != 0 && r.0.body.ErrorBody? && r.0.body.error != "" && r.0.body.errorCode != ""
    ensures e.statusCode != 0 ==> r.0.status == e.statusCode
    ensures r.1.statusCode == r.0.status && r.1.message == r.0.body.error && r.1.errorCode == r.0.body.errorCode
    ensures r.1.level == ErrorLevel <==> r.0.status == 500
    ensures r.0.body.stack.Some? <==> rawNodeEnv == Some("development")
    ensures r.0.body.stack.Some? ==> r.0.body.stack.value == stack
  {
    var n := Normalize(e);
    (Respond(n, stack, rawNodeEnv), LogFor(n, stack, req))
  }

  /** The status sent is never falsy and is the error's own when it had one;
      every body carries a message and an error code. */
  lemma HandleResponse(e: AppError, stack: string, req: RequestInfo, rawNodeEnv: Option<string>)
    ensures var (resp, log) := Handle(e, stack, req, rawNodeEnv);
      && resp.status == (if e.statusCode != 0 then e.statusCode else 500)
      && resp.body.ErrorBody? && resp.body.error != "" && resp.body.errorCode != ""
      && (e.message != "" ==> resp.body.error == e.message)
      && (e.errorCode != "" ==> resp.body.errorCode == e.errorCode)
      && (log.level == ErrorLevel <==> resp.status == 500)
  {
  }

  /** With NODE_ENV unset the configuration record reports "development",
      yet the handler leaves the stack out, since it reads the unset
      variable itself. */
  lemma UnsetNodeEnvHidesStack(env: Config.Env, e: AppError, stack: string, req: RequestInfo)
    requires env.nodeEnv == None
    ensures Config.Load(env).nodeEnv == "development"
    ensures Handle(e, stack, req, env.nodeEnv).0.body.stack == None
  {
  }

  /** The error object the handler receives; lines 5-7 of the handler
      assign its fields in place. */
  class ErrorObject {
    var statusCode: int
    var message: string
    var errorCode: string
    const stack: string

    function Fields(): AppError
      reads this
    {
      AppError(message, statusCode, errorCode)
    }

    constructor (e: AppError, stack: string)
      ensures Fields() == e && this.stack == stack
    {
      statusCode, message, errorCode := e.statusCode, e.message, e.errorCode;
      this.stack := stack;
    }

    /** `errorHandler(err, req, res, next)`: the error is normalised in
        place, then logged and sent. */
    method HandleError(req: RequestInfo, rawNodeEnv: Option<string>) returns (resp: Response, log: LogRecord)
      modifies this
      ensures Fields() == Normalize(old(Fields()))
      ensures (resp, log) == Handle(old(Fields()), stack, req, rawNodeEnv)
    {
      if statusCode == 0 { statusCode := DefaultStatus; }
      if message == "" { message := DefaultMessage; }
      if errorCode == "" { errorCode := DefaultErrorCode; }
      if statusCode == 500 {
        log := LogRecord(ErrorLevel, "Application error", message, statusCode, errorCode,
                         Some(stack), req.path, Some(req.httpMethod), Some(req.ip));
      } else {
        log := LogRecord(WarnLevel, "Client error", message, statusCode, errorCode,
                         None, req.path, None, None);
      }
      var shown := if rawNodeEnv == Some("development") then Some(stack) else None;
      resp := Response(statusCode, ErrorBody(message, statusCode, errorCode, shown), NoCookie);
    }
  }
}
