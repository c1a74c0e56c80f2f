/** The two rate limiters (backend/middleware/rateLimiter.js). The attempt
    counting belongs to express-rate-limit and is an oracle here: `hits(key)`
    is the number of requests its store has counted for `key` in the
    current window, this one included. What the core configures is
    modelled: the window and maximum, the key, the test-environment switch
    and the 429 response. */
module RateLimiter {
  import opened Common
  import opened Text
  import opened Http
  import Config

  /** One limiter's policy; `keyByEmail` is the login limiter's custom key
      generator, the register limiter keeps the library's address key. */
  datatype Limiter = Limiter(windowMs: nat, max: nat, message: string, keyByEmail: bool)

  const LoginMessage := "Too many login attempts. Please try again later."
  const RegisterMessage := "Too many registration attempts. Please try again later."

  function LoginLimiter(cfg: Config.Config): (l: Limiter)
    ensures l.windowMs == cfg.rateLimit.loginWindowMs && l.max == cfg.rateLimit.loginMaxAttempts
    ensures l.keyByEmail && l.message == LoginMessage
  {
    Limiter(cfg.rateLimit.loginWindowMs, cfg.rateLimit.loginMaxAttempts, LoginMessage, true)
  }

  function RegisterLimiter(cfg: Config.Config): (l: Limiter)
    ensures l.windowMs == cfg.rateLimit.registerWindowMs && l.max == cfg.rateLimit.registerMaxAttempts
    ensures !l.keyByEmail && l.message == RegisterMessage
  {
    Limiter(cfg.rateLimit.registerWindowMs, cfg.rateLimit.registerMaxAttempts, RegisterMessage, false)
  }

  /** `skip: (req) => config.NODE_ENV === 'test'` */
  predicate Skip(cfg: Config.Config) {
    cfg.nodeEnv == "test"
  }

  /** The key a request is counted under. For login it is the submitted
      email when truthy, else `ipKeyGenerator(req)`: the login key generator
      hands the library's address-key function the whole request object,
      not its address, and `reqKey` is what that call returns. For
      registration it is always the library's default key, the address key
      `ipKey(req.ip)`. Both are parameters. */
  function Key(l: Limiter, req: Request, ipKey: string -> string, reqKey: Request -> string): (k: string)
    ensures l.keyByEmail && Truthy(req.email) ==> k == req.email.value
    ensures l.keyByEmail && !Truthy(req.email) ==> k == reqKey(req)
    ensures !l.keyByEmail ==> k == ipKey(req.ip)
  {
    if !l.keyByEmail then ipKey(req.ip)
    else if Truthy(req.email) then req.email.value
    else reqKey(req)
  }

  /** The limiter as middleware: `None` is `next()`, otherwise the
      handler's 429. A skipped request is not even counted. */
  function Gate(l: Limiter, cfg: Config.Config, req: Request, ipKey: string -> string,
                reqKey: Request -> string, hits: string -> nat): (r: Option<Response>)
    ensures r.Some? <==> !Skip(cfg) && hits(Key(l, req, ipKey, reqKey)) > l.max
    ensures r.Some? ==> r.value == Response(429, LimitBody(l.message, 429), NoCookie)
  {
    if Skip(cfg) then None
    else if hits(Key(l, req, ipKey, reqKey)) > l.max then Some(Response(429, LimitBody(l.message, 429), NoCookie))
    else None
  }

  /** With the shipped configuration: logins are limited to five per 15
      minutes per email (or address), registrations to ten per hour per
      address; the login window is shorter and allows fewer attempts. */
  lemma ShippedPolicies(env: Config.Env)
    ensures var cfg := Config.Load(env);
      && LoginLimiter(cfg) == Limiter(900000, 5, LoginMessage, true)
      && RegisterLimiter(cfg) == Limiter(3600000, 10, RegisterMessage, false)
      && LoginLimiter(cfg).windowMs < RegisterLimiter(cfg).windowMs
      && LoginLimiter(cfg).max < RegisterLimiter(cfg).max
  {
  }

  /** Registration is keyed by address alone: two requests from one
      address share a counter whatever emails they submit. */
  lemma RegisterKeyIgnoresEmail(cfg: Config.Config, req: Request, email: Option<string>, ipKey: string -> string,
                                reqKey: Request -> string)
    ensures Key(RegisterLimiter(cfg), req, ipKey, reqKey) == Key(RegisterLimiter(cfg), req.(email := email), ipKey, reqKey)
  {
  }

  /** The login key is the email as submitted, before validation trims it:
      the same address with white space in front is counted under another
      key, though the controller would receive the same trimmed email. */
  lemma PaddedEmailCountedApart(cfg: Config.Config, req: Request, ipKey: string -> string, reqKey: Request -> string)
    requires Truthy(req.email)
    ensures var padded := req.(email := Some(" " + req.email.value));
      && Key(LoginLimiter(cfg), padded, ipKey, reqKey) != Key(LoginLimiter(cfg), req, ipKey, reqKey)
      && Trim(padded.email.value) == Trim(req.email.value)
  {
    var e := req.email.value;
    assert (" " + e)[1..] == e;
    assert |" " + e| != |e|;
  }

  /** In the test environment neither limiter ever answers. */
  lemma SkippedInTest(cfg: Config.Config, req: Request, ipKey: string -> string, reqKey: Request -> string,
                      hits: string -> nat)
    requires cfg.nodeEnv == "test"
    ensures Gate(LoginLimiter(cfg), cfg, req, ipKey, reqKey, hits).None?
    ensures Gate(RegisterLimiter(cfg), cfg, req, ipKey, reqKey, hits).None?
  {
  }

  /** With the shipped configuration, outside the test environment, the
      first five logins counted for an email in a window pass and the sixth
      is answered with 429. */
  lemma SixthLoginLimited(env: Config.Env, req: Request, ipKey: string -> string, reqKey: Request -> string,
                          hits: string -> nat)
    requires Config.Load(env).nodeEnv != "test"
    requires Truthy(req.email)
    ensures var cfg := Config.Load(env);
      && (hits(req.email.value) <= 5 ==> Gate(LoginLimiter(cfg), cfg, req, ipKey, reqKey, hits).None?)
      && (hits(req.email.value) == 6 ==>
            Gate(LoginLimiter(cfg), cfg, req, ipKey, reqKey, hits) == Some(Response(429, LimitBody(LoginMessage, 429), NoCookie)))
  {
  }
}
