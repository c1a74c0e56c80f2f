/** End-to-end properties of the backend routes: what a client sees across
    register, login and the protected `/me` route. */
module Scenarios {
  import opened Common
  import opened Text
  import opened Http
  import opened Tokens
  import Config
  import Validation
  import RateLimiter
  import AuthMiddleware
  import AuthController
  import Routes
  import ErrorHandler

  /** A request carrying only a JSON body and a client address. */
  function BodyRequest(email: string, password: string, ip: string): Request {
    Request(Some(email), Some(password), ip, None, None, None, [])
  }

  /** The body passes server-side validation. */
  predicate AcceptableInput(ctx: Routes.Context, email: string, password: string) {
    ctx.isEmail(Trim(email)) && |Trim(email)| <= 255 && 6 <= |password| <= 128
  }

  /** Server-side validation passes an acceptable body, trimming the email. */
  lemma BodyValidates(ctx: Routes.Context, email: string, password: string, ip: string)
    requires AcceptableInput(ctx, email, password)
    ensures var req := BodyRequest(email, password, ip);
      Validation.ValidateAuthInput(req, ctx.isEmail) == req.(email := Some(Trim(email)))
  {
    var req := BodyRequest(email, password, ip);
    Validation.ValidationVerdict(req, ctx.isEmail);
  }

  /** Within its limit the register limiter lets a request through. */
  lemma RegisterGateOpen(ctx: Routes.Context, req: Request)
    requires ctx.registerHits(ctx.ipKey(req.ip)) <= ctx.cfg.rateLimit.registerMaxAttempts
    ensures Routes.RunStage(Routes.RegisterLimiterStage, ctx, req) == Routes.Next(req)
  {
    assert RateLimiter.Key(RateLimiter.RegisterLimiter(ctx.cfg), req, ctx.ipKey, ctx.reqKey) == ctx.ipKey(req.ip);
  }

  /** Within its limit for the address sent, the login limiter lets a
      request through. */
  lemma LoginGateOpen(ctx: Routes.Context, req: Request)
    requires req.email.Some? && req.email.value != ""
    requires ctx.loginHits(req.email.value) <= ctx.cfg.rateLimit.loginMaxAttempts
    ensures Routes.RunStage(Routes.LoginLimiterStage, ctx, req) == Routes.Next(req)
  {
    assert RateLimiter.Key(RateLimiter.LoginLimiter(ctx.cfg), req, ctx.ipKey, ctx.reqKey) == req.email.value;
  }

  /** An acceptable body within the register limit reaches the controller
      with the trimmed email and the password as sent. */
  lemma RegisterReachesController(ctx: Routes.Context, email: string, password: string, ip: string)
    requires AcceptableInput(ctx, email, password)
    requires ctx.registerHits(ctx.ipKey(ip)) <= ctx.cfg.rateLimit.registerMaxAttempts
    ensures var req := BodyRequest(email, password, ip);
      Routes.RunChain(Routes.RegisterChain, ctx, req)
        == Routes.Reached(req.(email := Some(Trim(email))), Routes.RegisterChain)
  {
    var req := BodyRequest(email, password, ip);
    BodyValidates(ctx, email, password, ip);
    RegisterGateOpen(ctx, req);
    Routes.CredentialChain(Routes.RegisterLimiterStage, ctx, req);
  }

  /** An acceptable login body within the limit reaches the controller
      with the trimmed email and the password as sent. */
  lemma LoginReachesController(ctx: Routes.Context, email: string, password: string, ip: string)
    requires AcceptableInput(ctx, email, password) && email != ""
    requires ctx.loginHits(email) <= ctx.cfg.rateLimit.loginMaxAttempts
    ensures var req := BodyRequest(email, password, ip);
      Routes.RunChain(Routes.LoginChain, ctx, req)
        == Routes.Reached(req.(email := Some(Trim(email))), Routes.LoginChain)
  {
    var req := BodyRequest(email, password, ip);
    BodyValidates(ctx, email, password, ip);
    LoginGateOpen(ctx, req);
    Routes.CredentialChain(Routes.LoginLimiterStage, ctx, req);
  }

  /** An acceptable login body within the limit is answered by the
      controller, run on the trimmed email and the password as sent. */
  lemma LoginOnBody(s: AuthController.StoreState, h: AuthController.Hasher, ctx: Routes.Context,
                    email: string, password: string, ip: string, fault: AuthController.Fault)
    requires AcceptableInput(ctx, email, password) && email != ""
    requires ctx.loginHits(email) <= ctx.cfg.rateLimit.loginMaxAttempts
    ensures Routes.LoginRoute(s, h, ctx, BodyRequest(email, password, ip), fault)
         == Routes.RouteResult(Routes.Answer(AuthController.LoginSpec(s, h, ctx.jwt, ctx.cfg, Trim(email), password, ctx.nowMs, fault),
                                             ctx, "/api/auth/login", "POST", ip),
                               Routes.LoginChain, true)
  {
    var req := BodyRequest(email, password, ip);
    var q := req.(email := Some(Trim(email)));
    assert Routes.RunChain(Routes.LoginChain, ctx, req) == Routes.Reached(q, Routes.LoginChain) by {
      LoginReachesController(ctx, email, password, ip);
    }
    Routes.LoginRouteReached(s, h, ctx, req, fault, q);
    assert Validation.FieldValue(q.email) == Trim(email) && Validation.FieldValue(q.password) == password;
  }

  /** A fresh, acceptable registration within the limit gets its 201 with
      the next id, and the store gains the row for the trimmed email. */
  lemma RegisterFresh(s: AuthController.StoreState, h: AuthController.Hasher, ctx: Routes.Context,
                      email: string, password: string, ip: string, salt: nat)
    requires Trim(email) !in s.users
    requires AcceptableInput(ctx, email, password)
    requires ctx.registerHits(ctx.ipKey(ip)) <= ctx.cfg.rateLimit.registerMaxAttempts
    ensures var (reg, s') := Routes.RegisterRoute(s, h, ctx, BodyRequest(email, password, ip), salt, AuthController.NoFault);
      && reg == Routes.RouteResult(Response(201, RegisteredBody("User successfully registered", s.nextId), NoCookie),
                                   Routes.RegisterChain, true)
      && s' == AuthController.RegisterSpec(s, h, ctx.cfg.security.bcryptRounds, Trim(email), password, salt, AuthController.NoFault).1
  {
    var req := BodyRequest(email, password, ip);
    var q := req.(email := Some(Trim(email)));
    assert Routes.RunChain(Routes.RegisterChain, ctx, req) == Routes.Reached(q, Routes.RegisterChain) by {
      RegisterReachesController(ctx, email, password, ip);
    }
    Routes.RegisterRouteReached(s, h, ctx, req, salt, AuthController.NoFault, q);
    assert Validation.FieldValue(q.email) == Trim(email) && Validation.FieldValue(q.password) == password;
  }

  /** Logging in with credentials the store accepts, within the limit,
      gets the 200 with a token for the stored identity. */
  lemma LoginAccepted(s: AuthController.StoreState, h: AuthController.Hasher, ctx: Routes.Context,
                      email: string, password: string, ip: string)
    requires Sound(ctx.jwt)
    requires AcceptableInput(ctx, email, password) && email != ""
    requires ctx.loginHits(email) <= ctx.cfg.rateLimit.loginMaxAttempts
    requires Trim(email) in s.users && h.compare(password, s.users[Trim(email)].passwordHash)
    ensures var login := Routes.LoginRoute(s, h, ctx, BodyRequest(email, password, ip), AuthController.NoFault);
      var id := s.users[Trim(email)].id;
      && login.reachedController
      && login.resp.status == 200
      && login.resp.body == LoggedInBody("Successfully logged in", Sign(ctx.jwt, id, Trim(email), ctx.nowMs), PublicUser(id, Trim(email)))
  {
    LoginOnBody(s, h, ctx, email, password, ip, AuthController.NoFault);
    var id := s.users[Trim(email)].id;
    var token := Sign(ctx.jwt, id, Trim(email), ctx.nowMs);
    var o := AuthController.LoginSpec(s, h, ctx.jwt, ctx.cfg, Trim(email), password, ctx.nowMs, AuthController.NoFault);
    assert o.Success? && o.value.status == 200
        && o.value.body == LoggedInBody("Successfully logged in", token, PublicUser(id, Trim(email))) by {
      AuthController.LoginSuccess(s, h, ctx.jwt, ctx.cfg, Trim(email), password, ctx.nowMs, AuthController.NoFault);
    }
  }

  /** `/me` with a token signed at `t`, sent as the cookie: the identity
      while the token lasts, a 401 TOKEN_EXPIRED afterwards. */
  lemma MeWithToken(ctx: Routes.Context, id: int, email: string, ip: string, t: nat)
    requires Sound(ctx.jwt) && Sign(ctx.jwt, id, email, t) != ""
    ensures var me := Routes.MeRoute(ctx, Request(None, None, ip, Some(Sign(ctx.jwt, id, email, t)), None, None, []));
      && (Seconds(ctx.nowMs) < Seconds(t) + LifetimeSeconds ==>
            me.resp == Response(200, CurrentUserBody(PublicUser(id, email)), NoCookie))
      && (Seconds(ctx.nowMs) >= Seconds(t) + LifetimeSeconds ==>
            me.resp.status == 401 && me.resp.body.ErrorBody? && me.resp.body.errorCode == "TOKEN_EXPIRED")
  {
    var req := Request(None, None, ip, Some(Sign(ctx.jwt, id, email, t)), None, None, []);
    Routes.ProtectedRoutesGated(ctx, req);
    AuthMiddleware.SignedTokenThroughGate(ctx.jwt, id, email, t, ctx.nowMs, None);
  }

  /** Register, then log in with the same credentials at time `t`, then
      call `/me` at time `later` with the token as the cookie: `/me` returns
      the new identity while the token is within its 30 minutes and a 401
      TOKEN_EXPIRED afterwards. */
  lemma RegisterLoginMe(s: AuthController.StoreState, h: AuthController.Hasher, ctx: Routes.Context,
                        email: string, password: string, ip: string, salt: nat, t: nat, later: nat)
    requires AuthController.HasherSound(h) && Sound(ctx.jwt)
    requires AuthController.WellFormed(s) && Trim(email) !in s.users
    requires AcceptableInput(ctx, email, password) && email != ""
    requires ctx.registerHits(ctx.ipKey(ip)) <= ctx.cfg.rateLimit.registerMaxAttempts
    requires ctx.loginHits(email) <= ctx.cfg.rateLimit.loginMaxAttempts
    requires Sign(ctx.jwt, s.nextId, Trim(email), t) != ""
    ensures var (reg, s') := Routes.RegisterRoute(s, h, ctx, BodyRequest(email, password, ip), salt, AuthController.NoFault);
      var login := Routes.LoginRoute(s', h, ctx.(nowMs := t), BodyRequest(email, password, ip), AuthController.NoFault);
      var token := Sign(ctx.jwt, s.nextId, Trim(email), t);
      var me := Routes.MeRoute(ctx.(nowMs := later), Request(None, None, ip, Some(token), None, None, []));
      && reg.resp == Response(201, RegisteredBody("User successfully registered", s.nextId), NoCookie)
      && login.resp.status == 200
      && login.resp.body == LoggedInBody("Successfully logged in", token, PublicUser(s.nextId, Trim(email)))
      && (Seconds(later) < Seconds(t) + LifetimeSeconds ==>
            me.resp == Response(200, CurrentUserBody(PublicUser(s.nextId, Trim(email))), NoCookie))
      && (Seconds(later) >= Seconds(t) + LifetimeSeconds ==> me.resp.status == 401 && me.resp.body.ErrorBody? && me.resp.body.errorCode == "TOKEN_EXPIRED")
  {
    RegisterFresh(s, h, ctx, email, password, ip, salt);
    var rounds := ctx.cfg.security.bcryptRounds;
    var s' := AuthController.RegisterSpec(s, h, rounds, Trim(email), password, salt, AuthController.NoFault).1;
    assert Trim(email) in s'.users && s'.users[Trim(email)].id == s.nextId
        && h.compare(password, s'.users[Trim(email)].passwordHash) by {
      assert s'.users[Trim(email)] == AuthController.UserRow(s.nextId, h.hash(password, rounds, salt));
      assert h.compare(password, h.hash(password, rounds, salt));
    }
    LoginAccepted(s', h, ctx.(nowMs := t), email, password, ip);
    MeWithToken(ctx.(nowMs := later), s.nextId, Trim(email), ip, t);
  }

  /** A refused login, whether the email is unknown or the password wrong,
      reaches the controller and is answered by the error handler with the
      one credential error. */
  lemma LoginRefused(s: AuthController.StoreState, h: AuthController.Hasher, ctx: Routes.Context,
                     email: string, password: string, ip: string)
    requires AcceptableInput(ctx, email, password) && email != ""
    requires ctx.loginHits(email) <= ctx.cfg.rateLimit.loginMaxAttempts
    requires Trim(email) in s.users ==> !h.compare(password, s.users[Trim(email)].passwordHash)
    ensures Routes.LoginRoute(s, h, ctx, BodyRequest(email, password, ip), AuthController.NoFault).resp
         == Routes.Answer(Failure(AuthController.InvalidCredentials), ctx, "/api/auth/login", "POST", ip)
  {
    LoginOnBody(s, h, ctx, email, password, ip, AuthController.NoFault);
    assert AuthController.LoginSpec(s, h, ctx.jwt, ctx.cfg, Trim(email), password, ctx.nowMs, AuthController.NoFault)
        == Failure(AuthController.InvalidCredentials);
  }

  /** At the HTTP boundary an unknown email and a wrong password get the
      same status, message, error code and cookie. The two refusals are
      separate errors thrown on different lines, each with its own stack
      trace (`stackA`, `stackB`); the handler sends that stack when the raw
      NODE_ENV is "development", and then the two responses differ exactly
      when the traces do. Outside development they are identical. */
  lemma LoginRefusalsLookAlike(s: AuthController.StoreState, h: AuthController.Hasher, ctx: Routes.Context,
                               stackA: string, stackB: string,
                               known: string, wrong: string, unknown: string, password: string, ip: string)
    requires AcceptableInput(ctx, known, wrong) && AcceptableInput(ctx, unknown, password)
    requires known != "" && unknown != ""
    requires ctx.loginHits(known) <= ctx.cfg.rateLimit.loginMaxAttempts
    requires ctx.loginHits(unknown) <= ctx.cfg.rateLimit.loginMaxAttempts
    requires Trim(known) in s.users && !h.compare(wrong, s.users[Trim(known)].passwordHash)
    requires Trim(unknown) !in s.users
    ensures var a := Routes.LoginRoute(s, h, ctx.(stack := stackA), BodyRequest(known, wrong, ip), AuthController.NoFault).resp;
      var b := Routes.LoginRoute(s, h, ctx.(stack := stackB), BodyRequest(unknown, password, ip), AuthController.NoFault).resp;
      && a.status == b.status == 401
      && a.body.ErrorBody? && b.body.ErrorBody?
      && a.body.(stack := None) == b.body.(stack := None)
      && a.cookie == b.cookie
      && a.body.error == "Invalid email or password"
      && a.body.errorCode == "INVALID_CREDENTIALS"
      && (a.body.stack.Some? <==> ctx.rawNodeEnv == Some("development"))
      && (a == b <==> ctx.rawNodeEnv != Some("development") || stackA == stackB)
  {
    var ctxA := ctx.(stack := stackA);
    var ctxB := ctx.(stack := stackB);
    var info := ErrorHandler.RequestInfo("/api/auth/login", "POST", ip);
    var answerA := Routes.Answer(Failure(AuthController.InvalidCredentials), ctxA, "/api/auth/login", "POST", ip);
    var answerB := Routes.Answer(Failure(AuthController.InvalidCredentials), ctxB, "/api/auth/login", "POST", ip);
    LoginRefused(s, h, ctxA, known, wrong, ip);
    LoginRefused(s, h, ctxB, unknown, password, ip);
    ErrorHandler.HandleResponse(AuthController.InvalidCredentials, stackA, info, ctx.rawNodeEnv);
    ErrorHandler.HandleResponse(AuthController.InvalidCredentials, stackB, info, ctx.rawNodeEnv);
    assert answerA.body.(stack := None) == answerB.body.(stack := None);
    if ctx.rawNodeEnv == Some("development") && stackA != stackB {
      assert answerA.body.stack.value != answerB.body.stack.value;
    }
  }
}
