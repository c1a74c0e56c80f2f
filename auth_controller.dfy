/** The credential controllers (backend/controllers/authController.js).
    The `users` table is an in-memory map from email to the row's id and
    password hash, with the next auto-increment id; bcrypt and jsonwebtoken
    are abstract (`Hasher`, `Tokens.Jwt`). An exception thrown by the
    database driver or a library is a `Fault` parameter naming the step
    that throws. */
module AuthController {
  import opened Common
  import opened Http
  import opened Tokens
  import Config

  /** bcrypt: `hash(password, rounds, salt)` and `compare(password, hash)`;
      the salt stands for the library's own randomness. */
  datatype Hasher = Hasher(hash: (string, int, nat) -> string, compare: (string, string) -> bool)

  /** The one property of bcrypt the model relies on: a password matches
      every hash made from it. */
  ghost predicate HasherSound(h: Hasher) {
    forall p, rounds, salt :: h.compare(p, h.hash(p, rounds, salt))
  }

  /** The step at which a foreign exception is thrown, if any. */
  datatype Fault = NoFault | AtConnect | AtLookup | AtHash | AtInsert | AtCompare | AtSign

  /** A row of the `users` table, keyed by its email. */
  datatype UserRow = UserRow(id: nat, passwordHash: string)

  datatype StoreState = StoreState(users: map<string, UserRow>, nextId: nat)

  /** Ids are below the next auto-increment value and no two rows share one. */
  ghost predicate WellFormed(s: StoreState) {
    && s.nextId >= 1
    && (forall e :: e in s.users ==> s.users[e].id < s.nextId)
    && (forall e1, e2 :: e1 in s.users && e2 in s.users && e1 != e2 ==> s.users[e1].id != s.users[e2].id)
  }

  const UserExists := AppError("User with this email already exists", 409, "USER_EXISTS")
  const InvalidCredentials := AppError("Invalid email or password", 401, "INVALID_CREDENTIALS")
  const NotAuthorized := AppError("Not authorized", 401, "NOT_AUTHORIZED")
  const RegistrationFailed := Caught(Foreign, "Registration failed")
  const LoginFailed := Caught(Foreign, "Login failed")
  const LogoutFailed := AppError("Logout failed", 500, "")

  /** `maxAge: 30 * 60 * 1000`: the cookie lives as long as the token. */
  const CookieMaxAgeMs: nat := 30 * 60 * 1000

  /** `register`: look the email up, refuse a duplicate with 409, otherwise
      hash the password and insert one row. A foreign exception at any step
      becomes a 500 and, since the insert is the last step, leaves the table
      as it was. */
  function RegisterSpec(s: StoreState, h: Hasher, rounds: int, email: string, password: string,
                        salt: nat, fault: Fault): (r: (Outcome, StoreState))
    ensures r.0.Success? <==> email !in s.users && (fault == NoFault || fault == AtCompare || fault == AtSign)
    ensures r.0.Failure? ==> r.1 == s && r.0.error in {UserExists, RegistrationFailed}
    ensures r.0.Success? ==> && r.1.users.Keys == s.users.Keys + {email}
                             && r.1.users[email].id == s.nextId && r.1.nextId == s.nextId + 1
                             && r.0.value.status == 201 && r.0.value.body.RegisteredBody?
                             && r.0.value.body.userId == s.nextId
  {
    if fault == AtConnect || fault == AtLookup then (Failure(RegistrationFailed), s)
    else if email in s.users then (Failure(Caught(Thrown(UserExists), "Registration failed")), s)
    else if fault == AtHash || fault == AtInsert then (Failure(RegistrationFailed), s)
    else
      assert fault.NoFault? || fault.AtCompare? || fault.AtSign?;
      var row := UserRow(s.nextId, h.hash(password, rounds, salt));
      (Success(Response(201, RegisteredBody("User successfully registered", s.nextId), NoCookie)),
       StoreState(s.users[email := row], s.nextId + 1))
  }

  /** `login`: look the email up and compare the password; an unknown email
      and a wrong password give one and the same 401. On success a token
      carrying the row's `{id, email}` is signed for 30 minutes, whatever
      the configured expiry, and also set as a cookie. */
  function LoginSpec(s: StoreState, h: Hasher, j: Jwt, cfg: Config.Config, email: string, password: string,
                     nowMs: nat, fault: Fault): (r: Outcome)
    ensures r.Failure? ==> r.error in {InvalidCredentials, LoginFailed}
    ensures r.Success? ==> email in s.users && h.compare(password, s.users[email].passwordHash)
    ensures r.Success? ==> && r.value.status == 200 && r.value.body.LoggedInBody?
                           && r.value.body.user == PublicUser(s.users[email].id, email)
                           && r.value.cookie == SetToken(r.value.body.token, CookieMaxAgeMs, cfg.nodeEnv == "production")
  {
    if fault == AtConnect || fault == AtLookup then Failure(LoginFailed)
    else if email !in s.users then Failure(Caught(Thrown(InvalidCredentials), "Login failed"))
    else if fault == AtCompare then Failure(LoginFailed)
    else if !h.compare(password, s.users[email].passwordHash) then Failure(Caught(Thrown(InvalidCredentials), "Login failed"))
    else if fault == AtSign then Failure(LoginFailed)
    else
      var id := s.users[email].id;
      var token := Sign(j, id, email, nowMs);
      Success(Response(200, LoggedInBody("Successfully logged in", token, PublicUser(id, email)),
                       SetToken(token, CookieMaxAgeMs, cfg.nodeEnv == "production")))
  }

  /** `getUser`: without `req.user` a 401, otherwise exactly `{id, email}`
      of the claims, dropping `iat` and `exp`. */
  function GetUser(user: Option<Claims>): (r: Outcome)
    ensures user.None? <==> r == Failure(NotAuthorized)
    ensures user.Some? ==> r.Success? && r.value.status == 200 && r.value.cookie == NoCookie
    ensures user.Some? ==> r.value.body == CurrentUserBody(PublicUser(user.value.id, user.value.email))
  {
    match user
    case None => Failure(Caught(Thrown(NotAuthorized), "Failed to get user info"))
    case Some(u) => Success(Response(200, CurrentUserBody(PublicUser(u.id, u.email)), NoCookie))
  }

  /** `logout`: the cookie is cleared and 200 sent; reading `req.user.id`
      without a user throws, and the catch block (which has no `AppError`
      branch) turns that into a 500. */
  function Logout(user: Option<Claims>): (r: Outcome)
    ensures r.Success? <==> user.Some?
    ensures r.Success? ==> r.value == Response(200, LoggedOutBody("Successfully logged out"), ClearToken)
    ensures r.Failure? ==> r.error.statusCode == 500 && r.error.message == "Logout failed"
  {
    if user.Some? then Success(Response(200, LoggedOutBody("Successfully logged out"), ClearToken))
    else Failure(LogoutFailed)
  }

  /** A duplicate registration fails with 409 USER_EXISTS and leaves every
      row, including the existing identity's hash, as it was. */
  lemma DuplicateRegisterRejected(s: StoreState, h: Hasher, rounds: int, email: string, password: string,
                                  salt: nat, fault: Fault)
    requires email in s.users
    requires fault != AtConnect && fault != AtLookup
    ensures RegisterSpec(s, h, rounds, email, password, salt, fault) == (Failure(UserExists), s)
  {
  }

  /** A successful registration adds exactly one row, for the new email,
      with a hash of the password and the next id; the 201 body carries that
      id and never the hash. Any failure leaves the table unchanged. */
  lemma RegisterEffect(s: StoreState, h: Hasher, rounds: int, email: string, password: string,
                       salt: nat, fault: Fault)
    requires WellFormed(s)
    ensures var (r, s') := RegisterSpec(s, h, rounds, email, password, salt, fault);
      && WellFormed(s')
      && (r.Failure? ==> s' == s)
      && (r.Success? <==> email !in s.users && fault in {NoFault, AtCompare, AtSign})
      && (r.Success? ==>
            && s'.users.Keys == s.users.Keys + {email}
            && (forall e :: e in s.users ==> s'.users[e] == s.users[e])
            && s'.users[email] == UserRow(s.nextId, h.hash(password, rounds, salt))
            && r.value == Response(201, RegisteredBody("User successfully registered", s'.users[email].id), NoCookie))
  {
    var (r, s') := RegisterSpec(s, h, rounds, email, password, salt, fault);
    if r.Success? {
      forall e1, e2 | e1 in s'.users && e2 in s'.users && e1 != e2
        ensures s'.users[e1].id != s'.users[e2].id
      {
        if e1 != email && e2 != email {
          assert s'.users[e1] == s.users[e1] && s'.users[e2] == s.users[e2];
        }
      }
    }
  }

  /** Enumeration resistance: every refusal of credentials, whether the
      email is unknown or the password wrong, is the same error. */
  lemma LoginRefusalsIdentical(s: StoreState, h: Hasher, j: Jwt, cfg: Config.Config,
                               e1: string, p1: string, e2: string, p2: string, nowMs: nat, fault: Fault)
    requires fault in {NoFault, AtHash, AtInsert, AtSign}
    requires e1 in s.users ==> !h.compare(p1, s.users[e1].passwordHash)
    requires e2 !in s.users
    ensures LoginSpec(s, h, j, cfg, e1, p1, nowMs, fault) == LoginSpec(s, h, j, cfg, e2, p2, nowMs, fault)
    ensures LoginSpec(s, h, j, cfg, e1, p1, nowMs, fault) == Failure(InvalidCredentials)
    ensures InvalidCredentials.statusCode == 401
  {
  }

  /** Login succeeds exactly for a stored email whose hash matches the
      password; then the body and the cookie carry one token, whose claims
      are the row's `{id, email}` with a 30-minute expiry, and the body's
      user is that same pair. */
  lemma LoginSuccess(s: StoreState, h: Hasher, j: Jwt, cfg: Config.Config, email: string, password: string,
                     nowMs: nat, fault: Fault)
    requires Sound(j)
    ensures var r := LoginSpec(s, h, j, cfg, email, password, nowMs, fault);
      && (r.Success? <==> email in s.users && h.compare(password, s.users[email].passwordHash)
                          && fault in {NoFault, AtHash, AtInsert})
      && (r.Success? ==>
            var id := s.users[email].id;
            && r.value.status == 200
            && r.value.body.LoggedInBody?
            && r.value.body.user == PublicUser(id, email)
            && r.value.body.message == "Successfully logged in"
            && r.value.body.token == Sign(j, id, email, nowMs)
            && r.value.cookie == SetToken(r.value.body.token, CookieMaxAgeMs, cfg.nodeEnv == "production")
            && j.decode(r.value.body.token) == Some(Claims(id, email, Seconds(nowMs), Seconds(nowMs) + LifetimeSeconds)))
      && (r.Failure? ==> r.error in {InvalidCredentials, LoginFailed})
  {
    var r := LoginSpec(s, h, j, cfg, email, password, nowMs, fault);
    if r.Success? {
      var id := s.users[email].id;
      var c := Claims(id, email, Seconds(nowMs), Seconds(nowMs) + LifetimeSeconds);
      assert j.decode(j.encode(c)) == Some(c);
    }
  }

  /** The cookie lifetime in milliseconds equals the token lifetime. */
  lemma CookieMatchesToken()
    ensures CookieMaxAgeMs == LifetimeSeconds * 1000 == 1800000
  {
  }

  /** The token's lifetime is fixed: the configured `JWT.EXPIRY` plays no
      part in what login returns. */
  lemma LoginIgnoresConfiguredExpiry(s: StoreState, h: Hasher, j: Jwt, cfg: Config.Config, expiry: string,
                                     email: string, password: string, nowMs: nat, fault: Fault)
    ensures LoginSpec(s, h, j, cfg, email, password, nowMs, fault)
         == LoginSpec(s, h, j, cfg.(jwt := cfg.jwt.(expiry := expiry)), email, password, nowMs, fault)
  {
  }

  /** Register then log in: with a sound bcrypt, the credentials just
      registered are accepted, and the token names the new id and email. */
  lemma RegisterThenLogin(s: StoreState, h: Hasher, j: Jwt, cfg: Config.Config, rounds: int,
                          email: string, password: string, salt: nat, nowMs: nat)
    requires HasherSound(h) && Sound(j)
    requires email !in s.users
    ensures var (_, s') := RegisterSpec(s, h, rounds, email, password, salt, NoFault);
      var r := LoginSpec(s', h, j, cfg, email, password, nowMs, NoFault);
      && r.Success?
      && r.value.body.user == PublicUser(s.nextId, email)
      && j.decode(r.value.body.token) == Some(Claims(s.nextId, email, Seconds(nowMs), Seconds(nowMs) + LifetimeSeconds))
  {
    var (_, s') := RegisterSpec(s, h, rounds, email, password, salt, NoFault);
    assert h.compare(password, h.hash(password, rounds, salt));
    LoginSuccess(s', h, j, cfg, email, password, nowMs, NoFault);
  }

  /** The `users` table with the collaborators the controllers call. */
  class UserStore {
    var users: map<string, UserRow>
    var nextId: nat
    const hasher: Hasher
    const jwt: Jwt
    const config: Config.Config

    function State(): StoreState
      reads this
    {
      StoreState(users, nextId)
    }

    ghost predicate Valid()
      reads this
    {
      WellFormed(State())
    }

    constructor (hasher: Hasher, jwt: Jwt, config: Config.Config)
      ensures Valid() && users == map[] && nextId == 1
      ensures this.hasher == hasher && this.jwt == jwt && this.config == config
    {
      users := map[];
      nextId := 1;
      this.hasher := hasher;
      this.jwt := jwt;
      this.config := config;
    }

    /** `exports.register`, with the rounds of the configuration. */
    method Register(email: string, password: string, salt: nat, fault: Fault) returns (r: Outcome)
      requires Valid()
      modifies this
      ensures Valid()
      ensures (r, State()) == RegisterSpec(old(State()), hasher, config.security.bcryptRounds, email, password, salt, fault)
    {
      RegisterEffect(State(), hasher, config.security.bcryptRounds, email, password, salt, fault);
      if fault == AtConnect || fault == AtLookup {
        return Failure(Caught(Foreign, "Registration failed"));
      }
      if email in users {
        return Failure(Caught(Thrown(UserExists), "Registration failed"));
      }
      if fault == AtHash {
        return Failure(Caught(Foreign, "Registration failed"));
      }
      var hashed := hasher.hash(password, config.security.bcryptRounds, salt);
      if fault == AtInsert {
        return Failure(Caught(Foreign, "Registration failed"));
      }
      var insertId := nextId;
      users := users[email := UserRow(insertId, hashed)];
      nextId := nextId + 1;
      r := Success(Response(201, RegisteredBody("User successfully registered", insertId), NoCookie));
    }

    /** `exports.login`: it only reads the table. */
    method Login(email: string, password: string, nowMs: nat, fault: Fault) returns (r: Outcome)
      requires Valid()
      ensures r == LoginSpec(State(), hasher, jwt, config, email, password, nowMs, fault)
      ensures r.Failure? ==> r.error in {InvalidCredentials, LoginFailed}
    {
      if fault == AtConnect || fault == AtLookup {
        return Failure(Caught(Foreign, "Login failed"));
      }
      if email !in users {
        return Failure(Caught(Thrown(InvalidCredentials), "Login failed"));
      }
      var row := users[email];
      if fault == AtCompare {
        return Failure(Caught(Foreign, "Login failed"));
      }
      var isPasswordValid := hasher.compare(password, row.passwordHash);
      if !isPasswordValid {
        return Failure(Caught(Thrown(InvalidCredentials), "Login failed"));
      }
      if fault == AtSign {
        return Failure(Caught(Foreign, "Login failed"));
      }
      var token := Sign(jwt, row.id, email, nowMs);
      var secure := config.nodeEnv == "production";
      r := Success(Response(200, LoggedInBody("Successfully logged in", token, PublicUser(row.id, email)),
                            SetToken(token, 30 * 60 * 1000, secure)));
    }
  }
}
