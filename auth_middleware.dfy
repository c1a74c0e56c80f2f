/** The session gate in front of the protected routes
    (backend/middleware/authMiddleware.js): it picks the token from the
    `token` cookie or, failing that, from the `Authorization` header with
    the bearer scheme's prefix removed (section 2.1 of RFC 6750), verifies
    it, and either records the claims as `req.user` or classifies the
    failure into an `AppError`. */
module AuthMiddleware {
  import opened Common
  import opened Text
  import opened Http
  import opened Tokens

  const BearerPrefix := "Bearer "

  const NoToken := AppError("Token not found", 401, "NO_TOKEN")
  const TokenExpired := AppError("Token expired", 401, "TOKEN_EXPIRED")
  const InvalidToken := AppError("Invalid token", 401, "INVALID_TOKEN")
  const AuthenticationFailed := AppError("Authentication failed", 500, "")

  /** `req.cookies?.token || req.headers.authorization?.replace('Bearer ', '')`:
      a truthy cookie wins; otherwise the header with its first "Bearer "
      removed, which may be empty. */
  function ExtractToken(cookieToken: Option<string>, authorization: Option<string>): (t: Option<string>)
    ensures Truthy(cookieToken) ==> t == cookieToken
    ensures !Truthy(cookieToken) && authorization.None? ==> t.None?
    ensures !Truthy(cookieToken) && authorization.Some? ==> t == Some(RemoveFirst(authorization.value, BearerPrefix))
  {
    if Truthy(cookieToken) then cookieToken
    else match authorization
      case None => None
      case Some(h) => Some(RemoveFirst(h, BearerPrefix))
  }

  /** A standard bearer header yields exactly the credentials after the
      scheme, unless a truthy cookie is present. */
  lemma BearerHeaderStripped(cookieToken: Option<string>, credentials: string)
    requires !Truthy(cookieToken)
    ensures ExtractToken(cookieToken, Some(BearerPrefix + credentials)) == Some(credentials)
  {
    var h := BearerPrefix + credentials;
    assert h[..|BearerPrefix|] == BearerPrefix;
    RemoveFirstOfPrefix(h, BearerPrefix);
    assert h[|BearerPrefix|..] == credentials;
  }

  /** A header that does not contain "Bearer " anywhere is used as it is. */
  lemma HeaderWithoutBearerUsedAsIs(cookieToken: Option<string>, h: string)
    requires !Truthy(cookieToken)
    requires forall j :: 0 <= j <= |h| ==> !OccursAt(h, BearerPrefix, j)
    ensures ExtractToken(cookieToken, Some(h)) == Some(h)
  {
    RemoveFirstAbsent(h, BearerPrefix);
  }

  /** The replacement is not a prefix strip: the first "Bearer " is cut out
      wherever it starts, with whatever comes before it kept, so
      "xBearer y" yields "xy". */
  lemma BearerRemovedInside(cookieToken: Option<string>, x: string, y: string)
    requires !Truthy(cookieToken)
    requires forall j :: 0 <= j < |x| ==> !OccursAt(x + BearerPrefix + y, BearerPrefix, j)
    ensures ExtractToken(cookieToken, Some(x + BearerPrefix + y)) == Some(x + y)
  {
    var h := x + BearerPrefix + y;
    assert h[|x|..|x| + |BearerPrefix|] == BearerPrefix;
    assert OccursAt(h, BearerPrefix, |x|);
    assert h[..|x|] == x && h[|x| + |BearerPrefix|..] == y;
  }

  /** The catch block's order: expiry is tested before the general token
      error it is a subclass of; anything else is a server error. */
  function Classify(v: VerifyOutcome): (r: Result<Claims, AppError>)
    ensures v.Verified? <==> r.Success?
    ensures v.Verified? ==> r.value == v.claims
    ensures v.Expired? ==> r == Failure(TokenExpired)
    ensures v.Malformed? ==> r == Failure(InvalidToken)
    ensures v.Crashed? ==> r == Failure(AuthenticationFailed)
  {
    match v
    case Verified(c) => Success(c)
    case Expired => Failure(TokenExpired)
    case Malformed => Failure(InvalidToken)
    case Crashed => Failure(AuthenticationFailed)
  }

  /** `authMiddleware(req, res, next)`: the claims to store as `req.user`
      and call `next()` with, or the error passed to `next(err)`.
      `verify` is `jwt.verify` with the secret and clock applied. */
  function Authenticate(cookieToken: Option<string>, authorization: Option<string>,
                        verify: string -> VerifyOutcome): (r: Result<Claims, AppError>)
    ensures !Truthy(ExtractToken(cookieToken, authorization)) <==> r == Failure(NoToken)
    ensures r.Success? ==> verify(ExtractToken(cookieToken, authorization).value) == Verified(r.value)
    ensures r.Failure? ==> r.error.statusCode == 401 || r.error == AuthenticationFailed
    ensures var t := ExtractToken(cookieToken, authorization);
      Truthy(t) ==> && (verify(t.value).Verified? ==> r == Success(verify(t.value).claims))
                    && (verify(t.value) == Expired ==> r == Failure(TokenExpired))
                    && (verify(t.value) == Malformed ==> r == Failure(InvalidToken))
                    && (verify(t.value) == Crashed ==> r == Failure(AuthenticationFailed))
  {
    var t := ExtractToken(cookieToken, authorization);
    if !Truthy(t) then Failure(NoToken)
    else Classify(verify(t.value))
  }

  /** The session gate with the library's verification at time `nowMs`:
      it lets through only a token that decodes and whose `exp` lies after
      the current second, and hands on exactly the decoded claims. */
  function AuthenticateAt(j: Jwt, nowMs: nat, cookieToken: Option<string>, authorization: Option<string>)
    : (r: Result<Claims, AppError>)
    ensures r.Success? <==> var t := ExtractToken(cookieToken, authorization);
      Truthy(t) && j.decode(t.value).Some? && Seconds(nowMs) < j.decode(t.value).value.exp
    ensures r.Success? ==> j.decode(ExtractToken(cookieToken, authorization).value) == Some(r.value)
  {
    Authenticate(cookieToken, authorization, (t: string) => Verify(j, t, nowMs))
  }

  /** With the library's verification the gate never fails with 500: a
      token is missing, expired or invalid, each a distinct 401. */
  lemma GateFailuresAre401(j: Jwt, nowMs: nat, cookieToken: Option<string>, authorization: Option<string>)
    ensures var r := AuthenticateAt(j, nowMs, cookieToken, authorization);
      r.Failure? ==> r.error in {NoToken, TokenExpired, InvalidToken}
  {
  }

  /** A token this service signed at `signedMs`, sent as a cookie, opens the
      gate with its own claims during its 30 minutes and reports
      TOKEN_EXPIRED afterwards. */
  lemma SignedTokenThroughGate(j: Jwt, id: int, email: string, signedMs: nat, nowMs: nat,
                               authorization: Option<string>)
    requires Sound(j)
    requires Sign(j, id, email, signedMs) != ""
    ensures var iat := Seconds(signedMs);
      AuthenticateAt(j, nowMs, Some(Sign(j, id, email, signedMs)), authorization) ==
        if Seconds(nowMs) < iat + LifetimeSeconds
        then Success(Claims(id, email, iat, iat + LifetimeSeconds))
        else Failure(TokenExpired)
  {
    SignThenVerify(j, id, email, signedMs, nowMs);
  }
}
