/** The four routes of backend/routes/auth.js: each is a fixed, ordered
    chain of middleware ending in a controller. A middleware either hands
    the (possibly changed) request on with `next()`, answers itself, or
    passes an error to `next(err)`, which the error handler answers. The
    chain runner records which middleware ran, so that what is never
    reached can be stated. */
module Routes {
  import opened Common
  import opened Http
  import opened Tokens
  import opened Text
  import Config
  import Validation
  import RateLimiter
  import AuthMiddleware
  import AuthController
  import ErrorHandler

  datatype Stage = RegisterLimiterStage | LoginLimiterStage | ValidateAuthInputStage
                 | HandleValidationErrorsStage | AuthMiddlewareStage

  const RegisterChain := [RegisterLimiterStage, ValidateAuthInputStage, HandleValidationErrorsStage]
  const LoginChain := [LoginLimiterStage, ValidateAuthInputStage, HandleValidationErrorsStage]
  const ProtectedChain := [AuthMiddlewareStage]

  /** Everything the middleware reads besides the request: the
      configuration, the raw NODE_ENV the error handler reads, the
      libraries' `isEmail`, the address key of a request's address
      (`ipKey`) and what `ipKeyGenerator(req)` returns for the login
      limiter's fallback (`reqKey`), the two limiters' counters, the token
      library, the clock, and the stack trace of the error a route raises. */
  datatype Context = Context(
    cfg: Config.Config,
    rawNodeEnv: Option<string>,
    isEmail: string -> bool,
    ipKey: string -> string,
    reqKey: Request -> string,
    loginHits: string -> nat,
    registerHits: string -> nat,
    jwt: Jwt,
    nowMs: nat,
    stack: string)

  datatype Step = Next(req: Request) | Respond(resp: Response) | Raise(err: AppError)

  /** One middleware on one request: only the limiters answer with 429,
      only the validation handler answers with 400, only the session gate
      raises an error, and a middleware that calls `next()` hands the
      request on unchanged except for the trimmed email and collected
      errors of validation and the `req.user` the gate sets. */
  function RunStage(st: Stage, ctx: Context, req: Request): (r: Step)
    ensures r.Respond? && (st == RegisterLimiterStage || st == LoginLimiterStage) ==> r.resp.status == 429
    ensures r.Respond? ==> st != ValidateAuthInputStage && st != AuthMiddlewareStage
    ensures r.Respond? && st == HandleValidationErrorsStage ==> r.resp.status == 400
    ensures r.Raise? <==> st == AuthMiddlewareStage && !r.Next?
    ensures r.Next? && st != ValidateAuthInputStage && st != AuthMiddlewareStage ==> r.req == req
    ensures r.Next? && st == AuthMiddlewareStage ==> r.req.user.Some? && r.req == req.(user := r.req.user)
  {
    match st
    case RegisterLimiterStage =>
      var g := RateLimiter.Gate(RateLimiter.RegisterLimiter(ctx.cfg), ctx.cfg, req, ctx.ipKey, ctx.reqKey, ctx.registerHits);
      if g.Some? then Respond(g.value) else Next(req)
    case LoginLimiterStage =>
      var g := RateLimiter.Gate(RateLimiter.LoginLimiter(ctx.cfg), ctx.cfg, req, ctx.ipKey, ctx.reqKey, ctx.loginHits);
      if g.Some? then Respond(g.value) else Next(req)
    case ValidateAuthInputStage =>
      Next(Validation.ValidateAuthInput(req, ctx.isEmail))
    case HandleValidationErrorsStage =>
      var v := Validation.HandleValidationErrors(req);
      if v.Some? then Respond(v.value) else Next(req)
    case AuthMiddlewareStage =>
      match AuthMiddleware.AuthenticateAt(ctx.jwt, ctx.nowMs, req.cookieToken, req.authorization)
      case Success(claims) => Next(req.(user := Some(claims)))
      case Failure(e) => Raise(e)
  }

  /** The result of running a chain: the controller is reached with the
      request as the chain left it, or some middleware stopped it. `ran`
      lists the middleware that ran, in order. */
  datatype ChainResult = Reached(req: Request, ran: seq<Stage>) | Stopped(step: Step, ran: seq<Stage>)

  /** Express's `next()` through a chain: the first middleware that does not
      call `next()` ends it, and the ones after it never run. */
  function RunChain(chain: seq<Stage>, ctx: Context, req: Request): (r: ChainResult)
    ensures r.Reached? ==> r.ran == chain
    ensures r.Stopped? ==> 1 <= |r.ran| <= |chain| && r.ran == chain[..|r.ran|] && !r.step.Next?
    decreases |chain|
  {
    if chain == [] then Reached(req, [])
    else
      match RunStage(chain[0], ctx, req)
      case Next(req') =>
        (match RunChain(chain[1..], ctx, req')
         case Reached(q, ran) => Reached(q, [chain[0]] + ran)
         case Stopped(st, ran) => Stopped(st, [chain[0]] + ran))
      case Respond(resp) => Stopped(Respond(resp), [chain[0]])
      case Raise(e) => Stopped(Raise(e), [chain[0]])
  }

  /** The error handler answering an error passed to `next(err)`. */
  function Answer(o: Outcome, ctx: Context, path: string, httpMethod: string, ip: string): (r: Response)
    ensures o.Success? ==> r == o.value
    ensures o.Failure? ==> r.status == (if o.error.statusCode != 0 then o.error.statusCode else 500)
    ensures o.Failure? ==> r.body.ErrorBody? && r.body.error != "" && r.cookie == NoCookie
  {
    match o
    case Success(resp) => resp
    case Failure(e) => ErrorHandler.Handle(e, ctx.stack, ErrorHandler.RequestInfo(path, httpMethod, ip), ctx.rawNodeEnv).0
  }

  function StopResponse(st: Step, ctx: Context, path: string, httpMethod: string, ip: string): Response {
    match st
    case Respond(resp) => resp
    case Raise(e) => Answer(Failure(e), ctx, path, httpMethod, ip)
    case Next(_) => Answer(Failure(AppError("", 0, "")), ctx, path, httpMethod, ip)
  }

  /** A route's response, the middleware that ran, and whether its
      controller ran. */
  datatype RouteResult = RouteResult(resp: Response, ran: seq<Stage>, reachedController: bool)

  /** `POST /register`: limiter, validation, then the register controller on
      the validated (trimmed) email. */
  function RegisterRoute(s: AuthController.StoreState, h: AuthController.Hasher, ctx: Context, req: Request,
                         salt: nat, fault: AuthController.Fault): (r: (RouteResult, AuthController.StoreState))
    ensures 1 <= |r.0.ran| <= |RegisterChain| && r.0.ran == RegisterChain[..|r.0.ran|]
    ensures r.0.reachedController ==> r.0.ran == RegisterChain
    ensures !r.0.reachedController ==> r.1 == s
  {
    match RunChain(RegisterChain, ctx, req)
    case Stopped(st, ran) => (RouteResult(StopResponse(st, ctx, "/api/auth/register", "POST", req.ip), ran, false), s)
    case Reached(q, ran) =>
      var (o, s') := AuthController.RegisterSpec(s, h, ctx.cfg.security.bcryptRounds,
                                                 Validation.FieldValue(q.email), Validation.FieldValue(q.password), salt, fault);
      (RouteResult(Answer(o, ctx, "/api/auth/register", "POST", req.ip), ran, true), s')
  }

  /** `POST /login`: limiter, validation, then the login controller. */
  function LoginRoute(s: AuthController.StoreState, h: AuthController.Hasher, ctx: Context, req: Request,
                      fault: AuthController.Fault): (r: RouteResult)
    ensures 1 <= |r.ran| <= |LoginChain| && r.ran == LoginChain[..|r.ran|]
    ensures r.reachedController ==> r.ran == LoginChain
  {
    match RunChain(LoginChain, ctx, req)
    case Stopped(st, ran) => RouteResult(StopResponse(st, ctx, "/api/auth/login", "POST", req.ip), ran, false)
    case Reached(q, ran) =>
      var o := AuthController.LoginSpec(s, h, ctx.jwt, ctx.cfg, Validation.FieldValue(q.email),
                                        Validation.FieldValue(q.password), ctx.nowMs, fault);
      RouteResult(Answer(o, ctx, "/api/auth/login", "POST", req.ip), ran, true)
  }

  /** `POST /logout`: the session gate, then the logout controller. */
  function LogoutRoute(ctx: Context, req: Request): (r: RouteResult)
    ensures r.ran == ProtectedChain
    ensures r.reachedController ==> r.resp.status == 200 && r.resp.cookie == ClearToken
    ensures !r.reachedController ==> r.resp.status != 200
  {
    match RunChain(ProtectedChain, ctx, req)
    case Stopped(st, ran) => RouteResult(StopResponse(st, ctx, "/api/auth/logout", "POST", req.ip), ran, false)
    case Reached(q, ran) => RouteResult(Answer(AuthController.Logout(q.user), ctx, "/api/auth/logout", "POST", req.ip), ran, true)
  }

  /** `GET /me`: the session gate, then the current-user controller. */
  function MeRoute(ctx: Context, req: Request): (r: RouteResult)
    ensures r.ran == ProtectedChain
    ensures r.reachedController ==> r.resp.status == 200 && r.resp.body.CurrentUserBody?
    ensures !r.reachedController ==> r.resp.status != 200
  {
    match RunChain(ProtectedChain, ctx, req)
    case Stopped(st, ran) => RouteResult(StopResponse(st, ctx, "/api/auth/me", "GET", req.ip), ran, false)
    case Reached(q, ran) => RouteResult(Answer(AuthController.GetUser(q.user), ctx, "/api/auth/me", "GET", req.ip), ran, true)
  }

  /** The limiter runs first on both credential routes: a request it
      answers gets its 429, no other middleware runs, the controller is not
      reached, and the store is neither read nor changed. */
  lemma {:induction false} RateLimitedStopsFirst(s: AuthController.StoreState, s2: AuthController.StoreState,
                                                h: AuthController.Hasher, ctx: Context, req: Request,
                                                salt: nat, fault: AuthController.Fault)
    ensures var lim := RateLimiter.Gate(RateLimiter.LoginLimiter(ctx.cfg), ctx.cfg, req, ctx.ipKey, ctx.reqKey, ctx.loginHits);
      var r := LoginRoute(s, h, ctx, req, fault);
      lim.Some? ==> && r == LoginRoute(s2, h, ctx, req, fault)
                    && r == RouteResult(lim.value, [LoginLimiterStage], false)
                    && r.resp.status == 429
    ensures var lim := RateLimiter.Gate(RateLimiter.RegisterLimiter(ctx.cfg), ctx.cfg, req, ctx.ipKey, ctx.reqKey, ctx.registerHits);
      var (r, s') := RegisterRoute(s, h, ctx, req, salt, fault);
      lim.Some? ==> && s' == s
                    && r == RouteResult(lim.value, [RegisterLimiterStage], false)
                    && r.resp.status == 429
  {
  }

  /** A credential chain in three cases: the limiter answers and nothing
      else runs; validation collects errors and the chain stops at the 400;
      or the controller is reached with the validated request. */
  lemma CredentialChain(lim: Stage, ctx: Context, req: Request)
    requires lim == RegisterLimiterStage || lim == LoginLimiterStage
    ensures var chain := [lim, ValidateAuthInputStage, HandleValidationErrorsStage];
      var v := Validation.ValidateAuthInput(req, ctx.isEmail);
      RunChain(chain, ctx, req) ==
        if RunStage(lim, ctx, req).Respond? then Stopped(RunStage(lim, ctx, req), [lim])
        else if v.validationErrors != [] then Stopped(Respond(Validation.HandleValidationErrors(v).value), chain)
        else Reached(v, chain)
  {
    var chain := [lim, ValidateAuthInputStage, HandleValidationErrorsStage];
    var first := RunStage(lim, ctx, req);
    assert first.Respond? || first == Next(req);
    if first == Next(req) {
      assert chain[1..] == [ValidateAuthInputStage, HandleValidationErrorsStage];
      ValidationStages(ctx, req);
    }
  }

  /** The two validation middlewares on their own: the request comes out
      with the collected errors, and any error stops it with the 400. */
  lemma ValidationStages(ctx: Context, req: Request)
    ensures var tail := [ValidateAuthInputStage, HandleValidationErrorsStage];
      var v := Validation.ValidateAuthInput(req, ctx.isEmail);
      RunChain(tail, ctx, req) ==
        if v.validationErrors != [] then Stopped(Respond(Validation.HandleValidationErrors(v).value), tail)
        else Reached(v, tail)
  {
    var tail := [ValidateAuthInputStage, HandleValidationErrorsStage];
    var v := Validation.ValidateAuthInput(req, ctx.isEmail);
    assert RunStage(ValidateAuthInputStage, ctx, req) == Next(v);
    assert tail[1..] == [HandleValidationErrorsStage];
    var last := RunStage(HandleValidationErrorsStage, ctx, v);
    if v.validationErrors == [] {
      assert last == Next(v);
      assert RunChain(tail[1..], ctx, v) == Reached(v, [HandleValidationErrorsStage]);
    } else {
      assert last == Respond(Validation.HandleValidationErrors(v).value);
      assert RunChain(tail[1..], ctx, v) == Stopped(last, [HandleValidationErrorsStage]);
    }
  }

  /** Once the register chain lets a request through, it hands on the
      request with its email trimmed, its password as sent and no errors
      collected, and the route's answer and new store are the controller's
      on that trimmed email and that password. */
  lemma RegisterRouteReached(s: AuthController.StoreState, h: AuthController.Hasher, ctx: Context, req: Request,
                             salt: nat, fault: AuthController.Fault, q: Request)
    requires RunChain(RegisterChain, ctx, req) == Reached(q, RegisterChain)
    ensures q.email == Some(Trim(Validation.FieldValue(req.email))) && q.password == req.password
    ensures q.validationErrors == []
    ensures var (o, s') := AuthController.RegisterSpec(s, h, ctx.cfg.security.bcryptRounds, Trim(Validation.FieldValue(req.email)),
                                                       Validation.FieldValue(req.password), salt, fault);
      RegisterRoute(s, h, ctx, req, salt, fault)
        == (RouteResult(Answer(o, ctx, "/api/auth/register", "POST", req.ip), RegisterChain, true), s')
  {
    CredentialChain(RegisterLimiterStage, ctx, req);
  }

  /** Once the login chain lets a request through, it hands on the request
      with its email trimmed, its password as sent and no errors collected,
      and the route's answer is the controller's on that trimmed email and
      that password. */
  lemma LoginRouteReached(s: AuthController.StoreState, h: AuthController.Hasher, ctx: Context, req: Request,
                          fault: AuthController.Fault, q: Request)
    requires RunChain(LoginChain, ctx, req) == Reached(q, LoginChain)
    ensures q.email == Some(Trim(Validation.FieldValue(req.email))) && q.password == req.password
    ensures q.validationErrors == []
    ensures LoginRoute(s, h, ctx, req, fault)
         == RouteResult(Answer(AuthController.LoginSpec(s, h, ctx.jwt, ctx.cfg, Trim(Validation.FieldValue(req.email)),
                                                        Validation.FieldValue(req.password), ctx.nowMs, fault),
                               ctx, "/api/auth/login", "POST", req.ip), LoginChain, true)
  {
    CredentialChain(LoginLimiterStage, ctx, req);
  }

  /** A request the limiter lets through but validation rejects gets the
      400 with the collected errors; the controller is not reached. */
  lemma InvalidInputStopsBeforeController(s: AuthController.StoreState, h: AuthController.Hasher, ctx: Context,
                                          req: Request, fault: AuthController.Fault)
    requires RateLimiter.Gate(RateLimiter.LoginLimiter(ctx.cfg), ctx.cfg, req, ctx.ipKey, ctx.reqKey, ctx.loginHits).None?
    requires Validation.ValidateAuthInput(req, ctx.isEmail).validationErrors != []
    ensures var r := LoginRoute(s, h, ctx, req, fault);
      && !r.reachedController && r.ran == LoginChain
      && r.resp == Response(400, ValidationBody("Validation failed", Validation.ValidateAuthInput(req, ctx.isEmail).validationErrors), NoCookie)
  {
    CredentialChain(LoginLimiterStage, ctx, req);
  }

  /** The login controller, and so the credential check, runs exactly when
      the limiter passes and validation collects nothing; it then receives
      the trimmed email. */
  lemma LoginControllerReachedIff(s: AuthController.StoreState, h: AuthController.Hasher, ctx: Context,
                                  req: Request, fault: AuthController.Fault)
    ensures var r := LoginRoute(s, h, ctx, req, fault);
      var v := Validation.ValidateAuthInput(req, ctx.isEmail);
      && (r.reachedController <==>
            RateLimiter.Gate(RateLimiter.LoginLimiter(ctx.cfg), ctx.cfg, req, ctx.ipKey, ctx.reqKey, ctx.loginHits).None?
            && v.validationErrors == [])
      && (r.reachedController ==>
            r.ran == LoginChain
            && r.resp == Answer(AuthController.LoginSpec(s, h, ctx.jwt, ctx.cfg, Validation.FieldValue(v.email),
                                                        Validation.FieldValue(req.password), ctx.nowMs, fault),
                                ctx, "/api/auth/login", "POST", req.ip))
  {
    CredentialChain(LoginLimiterStage, ctx, req);
  }

  /** The register controller runs exactly when the register limiter passes
      and validation collects nothing; a stopped request leaves the store
      as it was. */
  lemma RegisterControllerReachedIff(s: AuthController.StoreState, h: AuthController.Hasher, ctx: Context,
                                     req: Request, salt: nat, fault: AuthController.Fault)
    ensures var rs := RegisterRoute(s, h, ctx, req, salt, fault);
      var v := Validation.ValidateAuthInput(req, ctx.isEmail);
      && (rs.0.reachedController <==>
            RateLimiter.Gate(RateLimiter.RegisterLimiter(ctx.cfg), ctx.cfg, req, ctx.ipKey, ctx.reqKey, ctx.registerHits).None?
            && v.validationErrors == [])
      && (!rs.0.reachedController ==> rs.1 == s)
  {
    CredentialChain(RegisterLimiterStage, ctx, req);
  }

  /** Logout and `/me` run only the session gate (no limiter, no
      validation), and reach their controllers exactly when it succeeds,
      with `req.user` set to the verified claims. */
  lemma ProtectedRoutesGated(ctx: Context, req: Request)
    ensures var a := AuthMiddleware.AuthenticateAt(ctx.jwt, ctx.nowMs, req.cookieToken, req.authorization);
      && LogoutRoute(ctx, req).ran == ProtectedChain && MeRoute(ctx, req).ran == ProtectedChain
      && (LogoutRoute(ctx, req).reachedController <==> a.Success?)
      && (MeRoute(ctx, req).reachedController <==> a.Success?)
      && (a.Success? ==>
            MeRoute(ctx, req).resp == Response(200, CurrentUserBody(PublicUser(a.value.id, a.value.email)), NoCookie))
      && (a.Success? ==>
            LogoutRoute(ctx, req).resp == Response(200, LoggedOutBody("Successfully logged out"), ClearToken))
      && (a.Failure? ==> MeRoute(ctx, req).resp.status == a.error.statusCode)
  {
    var a := AuthMiddleware.AuthenticateAt(ctx.jwt, ctx.nowMs, req.cookieToken, req.authorization);
    if a.Success? {
      var q := req.(user := Some(a.value));
      assert RunChain(ProtectedChain[1..], ctx, q) == Reached(q, []);
    }
  }

  /** `POST /register` on the live store. */
  method PostRegister(store: AuthController.UserStore, ctx: Context, req: Request, salt: nat,
                      fault: AuthController.Fault) returns (res: RouteResult)
    requires store.Valid() && store.config == ctx.cfg
    modifies store
    ensures store.Valid()
    ensures (res, store.State()) == RegisterRoute(old(store.State()), store.hasher, ctx, req, salt, fault)
  {
    var chain := RunChain(RegisterChain, ctx, req);
    if chain.Stopped? {
      res := RouteResult(StopResponse(chain.step, ctx, "/api/auth/register", "POST", req.ip), chain.ran, false);
    } else {
      var o := store.Register(Validation.FieldValue(chain.req.email), Validation.FieldValue(chain.req.password), salt, fault);
      res := RouteResult(Answer(o, ctx, "/api/auth/register", "POST", req.ip), chain.ran, true);
    }
  }

  /** `POST /login` on the live store; it never changes the store. */
  method PostLogin(store: AuthController.UserStore, ctx: Context, req: Request,
                   fault: AuthController.Fault) returns (res: RouteResult)
    requires store.Valid() && store.config == ctx.cfg && store.jwt == ctx.jwt
    ensures res == LoginRoute(store.State(), store.hasher, ctx, req, fault)
    ensures !res.reachedController ==> res.ran != [] && res.ran == LoginChain[..|res.ran|]
  {
    var chain := RunChain(LoginChain, ctx, req);
    if chain.Stopped? {
      res := RouteResult(StopResponse(chain.step, ctx, "/api/auth/login", "POST", req.ip), chain.ran, false);
    } else {
      var o := store.Login(Validation.FieldValue(chain.req.email), Validation.FieldValue(chain.req.password), ctx.nowMs, fault);
      res := RouteResult(Answer(o, ctx, "/api/auth/login", "POST", req.ip), chain.ran, true);
    }
  }
}
