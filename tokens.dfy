/** The session-token boundary. Signing and signature checking belong to
    the jsonwebtoken library and are abstract here: a `Jwt` value holds the
    encoder and decoder bound to the service's secret. What the core decides
    is modelled explicitly: the claims it signs, the fixed 30-minute
    lifetime, and the expiry rule of the JWT `exp` claim (section 4.1.4 of
    RFC 7519: the token must not be accepted at or after that time). */
module Tokens {
  import opened Common
  import opened Http

  /** `encode` signs claims with the secret; `decode` checks structure and
      signature and gives back the signed claims, or `None`. */
  datatype Jwt = Jwt(encode: Claims -> string, decode: string -> Option<Claims>)

  /** The one property of the library the model relies on: a token it
      signed decodes to the claims it was signed with. */
  ghost predicate Sound(j: Jwt) {
    forall c :: j.decode(j.encode(c)) == Some(c)
  }

  /** `expiresIn: '30m'`, in seconds. */
  const LifetimeSeconds: nat := 30 * 60

  /** jsonwebtoken reads the clock as whole seconds: `Math.floor(Date.now() / 1000)`. */
  function Seconds(nowMs: nat): nat {
    nowMs / 1000
  }

  /** `jwt.sign({id, email}, secret, {expiresIn: '30m'})` at time `nowMs`. */
  function Sign(j: Jwt, id: int, email: string, nowMs: nat): (token: string)
    ensures Sound(j) ==> j.decode(token) == Some(Claims(id, email, nowMs / 1000, nowMs / 1000 + 1800))
  {
    j.encode(Claims(id, email, Seconds(nowMs), Seconds(nowMs) + LifetimeSeconds))
  }

  /** The outcomes of `jwt.verify` the middleware distinguishes:
      `TokenExpiredError`, any other `JsonWebTokenError`, and an exception
      of another kind. */
  datatype VerifyOutcome = Verified(claims: Claims) | Expired | Malformed | Crashed

  /** `jwt.verify(token, secret)` at time `nowMs`: the signature is checked
      first, then expiry. */
  function Verify(j: Jwt, token: string, nowMs: nat): (r: VerifyOutcome)
    ensures !r.Crashed?
    ensures r.Verified? ==> j.decode(token) == Some(r.claims) && Seconds(nowMs) < r.claims.exp
    ensures r.Expired? <==> j.decode(token).Some? && Seconds(nowMs) >= j.decode(token).value.exp
    ensures r.Malformed? <==> j.decode(token).None?
  {
    match j.decode(token)
    case None => Malformed
    case Some(c) => if Seconds(nowMs) >= c.exp then Expired else Verified(c)
  }

  /** A token signed at `signedMs` is accepted, with exactly the claims it
      was signed with, while the clock reads fewer than 1800 whole seconds
      after the signing second, and is expired from then on. */
  lemma SignThenVerify(j: Jwt, id: int, email: string, signedMs: nat, nowMs: nat)
    requires Sound(j)
    ensures var iat := Seconds(signedMs);
      Verify(j, Sign(j, id, email, signedMs), nowMs) ==
        if Seconds(nowMs) < iat + LifetimeSeconds
        then Verified(Claims(id, email, iat, iat + LifetimeSeconds))
        else Expired
  {
    var c := Claims(id, email, Seconds(signedMs), Seconds(signedMs) + LifetimeSeconds);
    assert j.decode(j.encode(c)) == Some(c);
  }

  /** In milliseconds: a token signed at `t` is accepted at every time in
      `[t, t + 1799000]` and rejected as expired at `t + 1800000` and later
      (whole-second truncation can only shorten the window). */
  lemma LifetimeInMilliseconds(j: Jwt, id: int, email: string, t: nat, nowMs: nat)
    requires Sound(j)
    ensures t <= nowMs <= t + 1799000 ==> Verify(j, Sign(j, id, email, t), nowMs).Verified?
    ensures nowMs >= t + 1800000 ==> Verify(j, Sign(j, id, email, t), nowMs) == Expired
  {
    SignThenVerify(j, id, email, t, nowMs);
  }
}
