/** The backend's configuration record (backend/config/config.js): a
    constant record whose environment lookups fall back to defaults through
    JavaScript's `||`, so that a missing, empty, NaN or zero value takes the
    default. */
module Config {
  import opened Common
  import opened Text

  /** The result of JavaScript's `parseInt(x, 10)`: NaN or an integer. */
  datatype ParsedInt = NaN | Num(n: int)

  /** The environment variables the record reads; `None` is an unset variable. */
  datatype Env = Env(
    port: Option<string>,
    nodeEnv: Option<string>,
    jwtSecret: Option<string>,
    jwtExpiry: Option<string>,
    bcryptRounds: Option<string>,
    logLevel: Option<string>)

  datatype JwtConfig = JwtConfig(secret: string, expiry: string)
  datatype Security = Security(bcryptRounds: int, passwordMinLength: nat, passwordMaxLength: nat, emailMaxLength: nat)
  datatype RateLimit = RateLimit(loginWindowMs: nat, loginMaxAttempts: nat, registerWindowMs: nat, registerMaxAttempts: nat)

  datatype Config = Config(
    port: int,
    nodeEnv: string,
    jwt: JwtConfig,
    security: Security,
    rateLimit: RateLimit,
    logLevel: string)

  const PasswordMinLength: nat := 6
  const PasswordMaxLength: nat := 128
  const EmailMaxLength: nat := 255
  const LoginWindowMs: nat := 15 * 60 * 1000
  const LoginMaxAttempts: nat := 5
  const RegisterWindowMs: nat := 60 * 60 * 1000
  const RegisterMaxAttempts: nat := 10

  const DefaultPort := 5000
  const DefaultBcryptRounds := 10
  const DefaultNodeEnv := "development"
  const DefaultJwtSecret := "your_super_secret_key_change_in_production"
  const DefaultJwtExpiry := "30m"
  const DefaultLogLevel := "info"

  predicate IsDigit(c: char) { '0' <= c <= '9' }

  predicate IsSignOrDigit(c: char) { IsDigit(c) || c == '-' || c == '+' }

  predicate AllDigits(s: string) {
    forall i :: 0 <= i < |s| ==> IsDigit(s[i])
  }

  /** The longest prefix of `s` made of decimal digits. */
  function LeadingDigits(s: string): (r: string)
    ensures |r| <= |s| && r == s[..|r|] && AllDigits(r)
    ensures |r| < |s| ==> !IsDigit(s[|r|])
  {
    if s != [] && IsDigit(s[0]) then [s[0]] + LeadingDigits(s[1..]) else []
  }

  /** The value of a string of decimal digits, most significant first. */
  function DigitsValue(ds: string): nat
    requires AllDigits(ds)
  {
    if ds == [] then 0
    else DigitsValue(ds[..|ds| - 1]) * 10 + (ds[|ds| - 1] as int - '0' as int)
  }

  /** `parseInt(s, 10)`: leading white space is skipped, one sign is read,
      then as many decimal digits as follow; no digit at all gives NaN, and so
      does an unset variable (`parseInt(undefined)`). */
  function ParseInt(s: Option<string>): (r: ParsedInt)
    ensures s.None? ==> r == NaN
    ensures s.Some? && s.value != [] && AllDigits(s.value) ==> r == Num(DigitsValue(s.value))
    ensures s.Some? && (TrimStart(s.value) == [] || !IsSignOrDigit(TrimStart(s.value)[0])) ==> r == NaN
    ensures r.Num? && s.Some? && TrimStart(s.value)[0] != '-' ==> r.n >= 0
  {
    match s
    case None => NaN
    case Some(str) =>
      var t := TrimStart(str);
      assert str != [] && AllDigits(str) ==> t == str && LeadingDigits(t) == t by {
        if str != [] && AllDigits(str) {
          assert !IsWs(str[0]);
          LeadingDigitsOfDigits(str);
        }
      }
      var signed := t != [] && (t[0] == '-' || t[0] == '+');
      var body := if signed then t[1..] else t;
      var ds := LeadingDigits(body);
      if ds == [] then NaN
      else if t[0] == '-' then Num(-(DigitsValue(ds) as int))
      else Num(DigitsValue(ds))
  }

  /** The decimal rendering of a natural number, as an operator would write
      it into the environment. */
  function DecimalString(n: nat): (r: string)
    ensures r != [] && AllDigits(r)
  {
    if n < 10 then ['0' + n as char]
    else DecimalString(n / 10) + ['0' + (n % 10) as char]
  }

  lemma {:induction false} DigitsValueOfDecimal(n: nat)
    ensures DigitsValue(DecimalString(n)) == n
  {
    if n >= 10 {
      DigitsValueOfDecimal(n / 10);
      var r := DecimalString(n);
      assert r[..|r| - 1] == DecimalString(n / 10);
    }
  }

  lemma {:induction false} LeadingDigitsOfDigits(s: string)
    requires AllDigits(s)
    ensures LeadingDigits(s) == s
  {
    if s != [] {
      LeadingDigitsOfDigits(s[1..]);
    }
  }

  /** Round trip: `parseInt` reads back the decimal rendering of any
      natural number. */
  lemma ParseDecimal(n: nat)
    ensures ParseInt(Some(DecimalString(n))) == Num(n)
  {
    var s := DecimalString(n);
    assert !IsWs(s[0]);
    assert TrimStart(s) == s;
    LeadingDigitsOfDigits(s);
    DigitsValueOfDecimal(n);
  }

  /** `parseInt(v, 10) || d`: NaN and zero are falsy and give the default. */
  function IntOr(p: ParsedInt, d: int): (r: int)
    ensures r == d || (p.Num? && r == p.n)
    ensures p.Num? && p.n != 0 ==> r == p.n
    ensures d != 0 ==> r != 0
  {
    if p.Num? && p.n != 0 then p.n else d
  }

  /** `v || d` on a string variable: unset or empty gives the default. */
  function StringOr(v: Option<string>, d: string): (r: string)
    ensures Truthy(v) ==> r == v.value
    ensures !Truthy(v) ==> r == d
    ensures d != "" ==> r != ""
  {
    if Truthy(v) then v.value else d
  }

  /** The configuration record built from the environment. */
  function Load(env: Env): (c: Config)
    ensures c.port != 0 && c.security.bcryptRounds != 0
    ensures c.nodeEnv != "" && c.jwt.secret != "" && c.jwt.expiry != "" && c.logLevel != ""
    ensures c.security.passwordMinLength <= c.security.passwordMaxLength
    ensures c.rateLimit.loginWindowMs < c.rateLimit.registerWindowMs
    ensures c.rateLimit.loginMaxAttempts < c.rateLimit.registerMaxAttempts
  {
    Config(
      IntOr(ParseInt(env.port), DefaultPort),
      StringOr(env.nodeEnv, DefaultNodeEnv),
      JwtConfig(StringOr(env.jwtSecret, DefaultJwtSecret), StringOr(env.jwtExpiry, DefaultJwtExpiry)),
      Security(IntOr(ParseInt(env.bcryptRounds), DefaultBcryptRounds), PasswordMinLength, PasswordMaxLength, EmailMaxLength),
      RateLimit(LoginWindowMs, LoginMaxAttempts, RegisterWindowMs, RegisterMaxAttempts),
      StringOr(env.logLevel, DefaultLogLevel))
  }

  /** With nothing set, every entry takes its default: port 5000, ten
      bcrypt rounds, development mode, a 30-minute expiry string, level info. */
  lemma DefaultsWhenUnset()
    ensures var c := Load(Env(None, None, None, None, None, None));
      && c.port == 5000 && c.security.bcryptRounds == 10 && c.nodeEnv == "development"
      && c.jwt.expiry == "30m" && c.logLevel == "info"
      && c.jwt.secret == "your_super_secret_key_change_in_production"
  {
  }

  /** The fixed policy constants: passwords of 6 to 128 characters, emails
      of at most 255, five logins per 15 minutes, ten registrations per hour. */
  lemma PolicyConstants(env: Env)
    ensures var c := Load(env);
      && c.security == Security(c.security.bcryptRounds, 6, 128, 255)
      && c.rateLimit == RateLimit(900000, 5, 3600000, 10)
  {
  }

  /** A decimal port or round count written in the environment is used as
      it is, except zero, which falls back like an unset variable. */
  lemma NumericEnvRespected(env: Env, port: nat, rounds: nat)
    requires env.port == Some(DecimalString(port))
    requires env.bcryptRounds == Some(DecimalString(rounds))
    ensures Load(env).port == if port == 0 then 5000 else port
    ensures Load(env).security.bcryptRounds == if rounds == 0 then 10 else rounds
  {
    ParseDecimal(port);
    ParseDecimal(rounds);
  }

  /** A variable holding text with no digits after its sign, such as
      "abc", parses to NaN and so falls back to the default. */
  lemma NonNumericFallsBack(env: Env)
    requires env.port.Some? && env.port.value != [] && !IsWs(env.port.value[0])
    requires !IsDigit(env.port.value[0]) && env.port.value[0] != '-' && env.port.value[0] != '+'
    ensures Load(env).port == 5000
  {
    assert TrimStart(env.port.value) == env.port.value;
  }
}
