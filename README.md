# auth-system in Dafny

A model of the decision logic of a small Express + React login system. It has
two sides.

**Backend**
- The credential controllers, `register`, `login`, `logout` and `getUser`. They work over a user table.
- The session gate, which picks a token from the cookie or the bearer header and classifies verification failures.
- The error handler, which fills defaults, chooses the log level and shapes the JSON response.
- express-validator's input rules and the 400 they produce.
- The two rate limiters' policies.
- The configuration record with its environment fallbacks, except the database block.
- The four routes, each an ordered middleware chain with early exit.

**Frontend**
- The login and registration forms: `validateForm`, the submit guard and per-field error clearing.
- The session context (`AuthContext`) as a state machine over `user`, `loading`, `error` and `isAuthenticated`.

State that the source changes in place is modelled as classes:
- `AuthController.UserStore` (the user table);
- `ErrorHandler.ErrorObject` (the error object the handler rewrites);
- `LoginForm.LoginForm` and `RegisterForm.RegisterForm` (component state);
- `AuthContext.AuthProvider` (context state).

Each method is proved to make exactly the transition of a pure specification function. Properties are proved about those functions.

The libraries are abstract. bcrypt is a pair of functions, `hash` and `compare`, and lemmas assume only that a password matches its own hash. jsonwebtoken is `encode`/`decode`, and lemmas assume only that decoding a signed token gives back its claims. express-validator's `isEmail`, express-rate-limit's counter and address key, the clock and any exception the database or a library throws are parameters.

Modules:
- `common`: Option and Result.
- `text`: JavaScript `\s`, `trim` and `replace`.
- `http`: AppError, request and response bodies.
- `tokens`: signing and expiry at the token boundary.
- `config`
- `validation`
- `rate_limiter`
- `auth_middleware`
- `auth_controller`
- `error_handler`
- `routes`
- `scenarios`: register, log in and call `/me` end to end.
- `email_pattern`: the client regular expression.
- `form_rules`
- `login_form`
- `register_form`
- `auth_context`

Behaviour of the code that is easy to misread; the model follows the code:
- The error handler shows the stack only when the process variable `NODE_ENV` is literally `development`. It reads the variable itself, not the configuration record. With the variable unset the record says `development` but no stack is sent (`ErrorHandler.UnsetNodeEnvHidesStack`).
- The token lifetime is the literal `'30m'` in the controller. The configured `JWT.EXPIRY` is never read (`AuthController.LoginIgnoresConfiguredExpiry`).
- The client shows "Validation failed" for every 400 from validation. The body's `error` is always set, so the field messages in `details` are never consulted (`AuthContext.ValidationDetailsNeverShown`).
- The login limiter keys on the email as sent, before validation trims it, so padded variants of one address are counted apart (`RateLimiter.PaddedEmailCountedApart`).
- Without an email, the login limiter's key generator calls `ipKeyGenerator(req)` with the whole request object, not with `req.ip` as the register limiter's default key does. The model keeps the two keys apart (`RateLimiter.Key`).
- The two login refusals send the same status, message and code, but they are separate errors with their own stack traces. With `NODE_ENV` set to `development` the stack is sent, so the responses then differ and show which check failed (`Scenarios.LoginRefusalsLookAlike`).
- The forms measure a password with JavaScript's `password.length`, which counts UTF-16 code units, while the server counts characters. A password of three emoji is six code units long: the form accepts it and the server answers 400 (`LoginForm.AstralPasswordPassesFormOnly`).

## Model

| member | source | states |
|---|---|---|
| Config.ParseDecimal | backend/config/config.js:4 | `parseInt(s, 10)` reads back the decimal rendering of every natural number |
| Config.IntOr | backend/config/config.js:4 | `parsed \|\| d`: a non-zero parsed number is kept; NaN and 0 give the default; a non-zero default gives a non-zero result |
| Config.StringOr | backend/config/config.js:33 | `v \|\| d`: a set, non-empty value is kept, otherwise the default; never empty when the default is not |
| Config.Load | backend/config/config.js:3-34 | the record has a non-zero port and round count and non-empty strings; min ≤ max password length; login window and maximum below the register ones |
| Config.DefaultsWhenUnset | backend/config/config.js:4-33 | with nothing set: port 5000, 10 rounds, `development`, expiry `30m`, level `info`, the default secret |
| Config.PolicyConstants | backend/config/config.js:21-30 | whatever the environment: passwords 6..128, emails ≤ 255, 5 logins per 900000 ms, 10 registrations per 3600000 ms |
| Config.NumericEnvRespected | backend/config/config.js:20 | a decimal PORT or BCRYPT_ROUNDS is used as written, except 0, which falls back to 5000 or 10 |
| Config.ParseInt | backend/config/config.js:4 | an unset variable is NaN; a string of decimal digits reads as its value; text whose first character after white space is not a digit or sign is NaN; only a leading minus gives a negative number |
| Config.NonNumericFallsBack | backend/config/config.js:4 | a PORT whose first character is not white space, a digit or a sign parses to NaN and gives 5000 |
| Text.Trim | backend/middleware/validation.js:6 | the result is a slice of the input that neither starts nor ends with white space |
| Text.TrimCutsOnlyWhiteSpace | backend/middleware/validation.js:6 | everything `trim` cuts off, on either side, is white space |
| Text.TrimEmptyIffAllWs | frontend/src/components/Login/Login.jsx:19 | `!s.trim()` holds exactly when every character is white space |
| Text.TrimIdempotent | backend/middleware/validation.js:6 | a trimmed string has no white space at either end, and trimming again changes nothing |
| Text.RemoveFirst | backend/middleware/authMiddleware.js:10 | `replace(pat, '')` with a string pattern cuts out the first occurrence, wherever it starts, and keeps everything around it; without an occurrence the string is unchanged |
| Text.RemoveFirstLength | backend/middleware/authMiddleware.js:10 | exactly the first occurrence found is cut out, so the result is shorter by the pattern's length when it occurs and unchanged otherwise |
| Text.JsLength | frontend/src/components/Login/Login.jsx:28 | `s.length` counts UTF-16 code units: between one and two per character, and exactly one per character when none lies outside the Basic Multilingual Plane |
| Http.Caught | backend/controllers/authController.js:46-57 | an AppError passes through unchanged; any other exception becomes a 500 with the controller's own message |
| Tokens.Sign | backend/controllers/authController.js:94-98 | with a sound library the token decodes to `{id, email}` with `iat` the signing second and `exp` 1800 seconds later |
| Tokens.Verify | backend/middleware/authMiddleware.js:20 | verification never crashes on a decoded token; it is accepted only before `exp`, expired at or after it, and malformed when it does not decode |
| Tokens.SignThenVerify | backend/controllers/authController.js:94-98 | a signed token verifies to exactly `{id, email}` with `exp = iat + 1800` before that second, and is expired from then on |
| Tokens.LifetimeInMilliseconds | backend/controllers/authController.js:97 | a token signed at t is accepted throughout [t, t+1799000] ms and expired from t+1800000 ms |
| Validation.EmailErrors | backend/middleware/validation.js:5-10 | on the trimmed email: "Invalid email address" exactly when `isEmail` fails, the length message exactly when longer than 255; both can appear |
| Validation.PasswordErrors | backend/middleware/validation.js:12-19 | no error or the single "between 6 and 128" message |
| Validation.ValidateAuthInput | backend/middleware/validation.js:4-20 | the email is replaced by its trimmed value; email errors, then password errors, are appended; nothing else changes |
| Validation.HandleValidationErrors | backend/middleware/validation.js:22-38 | `next()` exactly when nothing was collected, otherwise a 400 "Validation failed" listing every error in order |
| Validation.PasswordAcceptedIff | backend/middleware/validation.js:13-16 | a password passes exactly when its length lies in [6, 128] |
| Validation.EmailAcceptedIff | backend/middleware/validation.js:7-9 | an email passes exactly when its trimmed value satisfies `isEmail` and has at most 255 characters |
| Validation.EmailTrimmedFirst | backend/middleware/validation.js:6-7 | surrounding white space never changes the email's verdict |
| Validation.ValidationVerdict | backend/middleware/validation.js:4-38 | a fresh request passes both middlewares exactly when both fields are acceptable; otherwise the 400 lists the email's errors before the password's |
| RateLimiter.LoginLimiter | backend/middleware/rateLimiter.js:5-21 | the login window and maximum are the configured login ones, keyed by email, with the login message |
| RateLimiter.RegisterLimiter | backend/middleware/rateLimiter.js:23-36 | the register window and maximum, no custom key, the registration message |
| RateLimiter.Key | backend/middleware/rateLimiter.js:12-14 | the login key is the submitted email when truthy, else what `ipKeyGenerator` returns for the whole request object; the register key is always the library's default key of the request's address |
| RateLimiter.Gate | backend/middleware/rateLimiter.js:11-20 | a 429 with the limiter's message exactly when not in the test environment and the key's count exceeds the maximum |
| RateLimiter.ShippedPolicies | backend/middleware/rateLimiter.js:5-29 | with the shipped configuration: 5 per 900000 ms by email, 10 per 3600000 ms by address |
| RateLimiter.PaddedEmailCountedApart | backend/middleware/rateLimiter.js:13 | a padded email is counted under a different key than the bare one, though both trim to the same address |
| RateLimiter.RegisterKeyIgnoresEmail | backend/middleware/rateLimiter.js:23-29 | the register key does not depend on the submitted email |
| RateLimiter.SkippedInTest | backend/middleware/rateLimiter.js:11 | in the test environment neither limiter answers |
| RateLimiter.SixthLoginLimited | backend/middleware/rateLimiter.js:5-20 | with the shipped configuration the first five logins for an email pass and the sixth gets 429 |
| AuthMiddleware.ExtractToken | backend/middleware/authMiddleware.js:9-10 | a truthy cookie wins; otherwise the header with its first "Bearer " removed; no header, no token |
| AuthMiddleware.BearerHeaderStripped | backend/middleware/authMiddleware.js:10 | "Bearer " followed by credentials yields exactly the credentials |
| AuthMiddleware.HeaderWithoutBearerUsedAsIs | backend/middleware/authMiddleware.js:10 | a header without "Bearer " anywhere is used unchanged |
| AuthMiddleware.BearerRemovedInside | backend/middleware/authMiddleware.js:10 | for every header `x + "Bearer " + y` with no earlier "Bearer ", the token is `x + y`: the first "Bearer " is cut out wherever it starts |
| AuthMiddleware.Classify | backend/middleware/authMiddleware.js:25-50 | expired gives TOKEN_EXPIRED, malformed gives INVALID_TOKEN, anything else gives the 500; a verified token passes its claims |
| AuthMiddleware.Authenticate | backend/middleware/authMiddleware.js:7-52 | NO_TOKEN exactly when no truthy token is found; otherwise a verified token passes with its claims, an expired one gets TOKEN_EXPIRED, a malformed one INVALID_TOKEN and any other failure the 500 |
| AuthMiddleware.AuthenticateAt | backend/middleware/authMiddleware.js:9-22 | with the library's verification the gate passes exactly a found token that decodes and whose `exp` is after the current second, and hands on exactly its claims |
| AuthMiddleware.GateFailuresAre401 | backend/middleware/authMiddleware.js:12-40 | with the library's verification every failure is NO_TOKEN, TOKEN_EXPIRED or INVALID_TOKEN |
| AuthMiddleware.SignedTokenThroughGate | backend/middleware/authMiddleware.js:9-24 | a token this service signed, sent as the cookie, passes with its own claims for 30 minutes and is TOKEN_EXPIRED afterwards |
| AuthController.RegisterSpec | backend/controllers/authController.js:8-63 | success exactly for a new email without a fault; a failure is USER_EXISTS or the 500 and leaves the table as it was; a success adds the email's row with the next id and the 201 carries that id |
| AuthController.LoginSpec | backend/controllers/authController.js:65-137 | success only for a stored email whose hash matches; then 200 with the row's `{id, email}` and the body's token set as the cookie; every failure is INVALID_CREDENTIALS or the 500 |
| AuthController.GetUser | backend/controllers/authController.js:161-185 | 401 NOT_AUTHORIZED exactly without `req.user`; otherwise 200 with exactly `{id, email}` |
| AuthController.Logout | backend/controllers/authController.js:139-159 | with a user: 200 and the cookie cleared; without one, a 500 "Logout failed" |
| AuthController.DuplicateRegisterRejected | backend/controllers/authController.js:16-24 | a registered email gets 409 USER_EXISTS and the table is unchanged |
| AuthController.RegisterEffect | backend/controllers/authController.js:8-63 | success exactly for a new email without a fault; then exactly one row is added, with the next id and a hash of the password, and the 201 carries the id; failure leaves the table unchanged; ids stay distinct |
| AuthController.LoginRefusalsIdentical | backend/controllers/authController.js:77-92 | an unknown email and a wrong password give the same 401 INVALID_CREDENTIALS |
| AuthController.LoginSuccess | backend/controllers/authController.js:65-137 | success exactly for a stored email whose hash matches; the token's claims and the body's user are the row's `{id, email}`, the cookie carries the same token, and every failure is the 401 or the 500 |
| AuthController.CookieMatchesToken | backend/controllers/authController.js:97-104 | the cookie's maxAge of 1800000 ms equals the token's 30-minute lifetime |
| AuthController.LoginIgnoresConfiguredExpiry | backend/controllers/authController.js:94-98 | the configured expiry plays no part in the login outcome |
| AuthController.RegisterThenLogin | backend/controllers/authController.js:26-98 | credentials just registered are accepted, and the token names the new id and email |
| AuthController.UserStore.Register | backend/controllers/authController.js:8-63 | the store makes exactly the transition of the register specification and keeps ids distinct |
| AuthController.UserStore.Login | backend/controllers/authController.js:65-137 | the outcome is the login specification's, the table is not changed, and failures are only the 401 or the 500 |
| ErrorHandler.Normalize | backend/middleware/errorHandler.js:5-7 | falsy fields take 500, "Internal Server Error" and INTERNAL_ERROR; truthy ones are kept |
| ErrorHandler.NormalizeIdempotent | backend/middleware/errorHandler.js:5-7 | normalising twice is normalising once |
| ErrorHandler.LogFor | backend/middleware/errorHandler.js:9-26 | a 500 is logged at error level with stack, method and address; any other status at warn level without them |
| ErrorHandler.Respond | backend/middleware/errorHandler.js:28-33 | the status and body fields are the normalised error's; the stack appears exactly when NODE_ENV is "development" |
| ErrorHandler.Handle | backend/middleware/errorHandler.js:4-34 | the status sent is never falsy and is the error's own when it had one; the log carries the response's status, message and code, at error level exactly for a 500; the error's own stack is sent exactly when NODE_ENV is "development" |
| ErrorHandler.HandleResponse | backend/middleware/errorHandler.js:5-33 | the status sent is the error's own or 500; the body always has a message and a code, the error's own when it had them |
| ErrorHandler.UnsetNodeEnvHidesStack | backend/middleware/errorHandler.js:32 | with NODE_ENV unset the configuration says "development" but the stack is not sent |
| ErrorHandler.ErrorObject.HandleError | backend/middleware/errorHandler.js:4-34 | the error's fields are normalised in place, and the response and log are the handler's |
| Routes.RunStage | backend/routes/auth.js:9-35 | only a limiter answers, with 429; only the validation handler answers with 400; only the session gate raises; `next()` passes the request on unchanged except for validation's trimmed email and errors and the gate's `req.user` |
| Routes.RunChain | backend/routes/auth.js:9-35 | a reached controller ran the whole chain; a stopped chain ran a non-empty prefix and stopped on a response or an error |
| Routes.Answer | backend/middleware/errorHandler.js:4-34 | a controller's response is sent as is; an error passed to `next(err)` gets the handler's JSON body with the error's own status, or 500 |
| Routes.RegisterRoute | backend/routes/auth.js:9-15 | the middleware that ran is a non-empty prefix of limiter, validation, handler; the controller runs only after all three; a request it does not reach leaves the store unchanged |
| Routes.LoginRoute | backend/routes/auth.js:17-23 | the middleware that ran is a non-empty prefix of the login chain, all of it when the controller runs |
| Routes.LogoutRoute | backend/routes/auth.js:25-29 | only the session gate runs; a reached controller sends 200 and clears the cookie; otherwise the status is not 200 |
| Routes.MeRoute | backend/routes/auth.js:31-35 | only the session gate runs; a reached controller sends 200 with the current user; otherwise the status is not 200 |
| Routes.RateLimitedStopsFirst | backend/routes/auth.js:9-23 | a request the limiter answers gets the 429, nothing else runs, and the store is neither read nor changed |
| Routes.CredentialChain | backend/routes/auth.js:11-21 | the limiter runs first, then validation, and the controller receives the validated request |
| Routes.ValidationStages | backend/routes/auth.js:12-13 | the two validation middlewares stop with the 400 exactly when errors were collected |
| Routes.RegisterRouteReached | backend/routes/auth.js:9-15 | a request the register chain lets through reaches the controller with its email trimmed, its password as sent and no errors; the answer and the new store are the controller's on those values |
| Routes.LoginRouteReached | backend/routes/auth.js:17-23 | a request the login chain lets through reaches the controller with its email trimmed, its password as sent and no errors; the answer is the controller's on those values |
| Routes.InvalidInputStopsBeforeController | backend/routes/auth.js:17-23 | an invalid request the limiter lets through gets the 400 and never reaches the credential check |
| Routes.LoginControllerReachedIff | backend/routes/auth.js:17-23 | the login controller runs exactly when the limiter passes and validation collects nothing, and then receives the trimmed email |
| Routes.RegisterControllerReachedIff | backend/routes/auth.js:9-15 | the register controller runs exactly when its limiter passes and validation collects nothing; otherwise the store is unchanged |
| Routes.ProtectedRoutesGated | backend/routes/auth.js:25-35 | logout and `/me` run only the session gate and reach their controllers exactly when it succeeds |
| Routes.PostRegister | backend/routes/auth.js:9-15 | the live store makes exactly the register route's transition |
| Routes.PostLogin | backend/routes/auth.js:17-23 | the live store gives the login route's result; a stopped request ran a non-empty prefix of the chain |
| Scenarios.RegisterReachesController | backend/routes/auth.js:9-15 | an acceptable body within the register limit reaches the controller with the trimmed email |
| Scenarios.LoginReachesController | backend/routes/auth.js:17-23 | an acceptable body within the login limit reaches the controller with the trimmed email |
| Scenarios.LoginOnBody | backend/routes/auth.js:17-23 | for such a body the login route's answer is the controller's on the trimmed email |
| Scenarios.RegisterFresh | backend/controllers/authController.js:26-45 | a fresh acceptable registration gets 201 with the next id and the row is added under the trimmed email |
| Scenarios.LoginAccepted | backend/controllers/authController.js:94-119 | matching credentials get 200 with a token for the stored identity |
| Scenarios.MeWithToken | backend/routes/auth.js:31-35 | `/me` with the token returns the identity while it lasts and 401 TOKEN_EXPIRED afterwards |
| Scenarios.RegisterLoginMe | backend/routes/auth.js:9-35 | register, log in and `/me` in sequence: 201, 200 with the token, then the identity until the token expires |
| Scenarios.LoginRefused | backend/controllers/authController.js:77-92 | refused credentials get the handler's answer to INVALID_CREDENTIALS |
| Scenarios.LoginRefusalsLookAlike | backend/controllers/authController.js:77-92 | through the whole route an unknown email and a wrong password get the same 401 status, message, error code and cookie; each throw carries its own stack trace, sent only when NODE_ENV is "development", so the two responses are identical outside development and, in development, differ exactly when the traces do |
| EmailPattern.IndexOf | frontend/src/components/Login/Login.jsx:21 | the first occurrence of a character, or none |
| EmailPattern.MatchesSplits | frontend/src/components/Login/Login.jsx:21 | an accepted email splits into local part, domain and last part, each non-empty and free of white space and `@` |
| EmailPattern.JoinedMatches | frontend/src/components/Login/Login.jsx:21 | three such parts joined by `@` and `.` are accepted |
| EmailPattern.MatchesIff | frontend/src/components/Login/Login.jsx:21 | the matcher accepts exactly what the regular expression describes |
| EmailPattern.MatchedIsTrimmed | frontend/src/components/Login/Login.jsx:19-21 | an accepted email has no white space at either end and is not blank |
| EmailPattern.PaddedNeverMatches | frontend/src/components/Login/Login.jsx:19-21 | the expression is tested on the untrimmed email, so a padded email never matches |
| FormRules.EmailMessage | frontend/src/components/Login/Login.jsx:19-23 | "Email is required" exactly for a blank email, the invalid message exactly for a non-blank one that does not match, none exactly for a match |
| FormRules.EmailRuleMeaning | frontend/src/components/Login/Login.jsx:19-23 | "required" exactly for all-white-space input; no message exactly for what the regular expression describes |
| FormRules.PasswordMessage | frontend/src/components/Login/Login.jsx:26-30 | "Password is required" exactly for an empty password, the minimum-length message exactly for 1 to 5 UTF-16 code units; six characters always pass |
| FormRules.ThreeAstralCharactersPass | frontend/src/components/Login/Login.jsx:28 | three emoji, six code units, pass the form's length rule |
| FormRules.Record | frontend/src/components/Login/Login.jsx:20-22 | a message, when there is one, adds its field's key holding exactly that message; every other key and message is kept, and without a message nothing changes |
| FormRules.ClearOnEdit | frontend/src/components/Login/Login.jsx:55-67 | the edited field no longer shows a message; every key stays; other fields keep theirs; nothing changes when nothing was shown |
| FormRules.ClearOnEditIdempotent | frontend/src/components/Login/Login.jsx:57-59 | clearing twice is clearing once |
| FormRules.MessagesShow | frontend/src/components/Login/Login.jsx:19-30 | every message a rule produces is non-empty, so it is displayed |
| LoginForm.ValidateLogin | frontend/src/components/Login/Login.jsx:15-34 | at most one message per field; the email has one exactly when it does not match, the password exactly when shorter than 6 UTF-16 code units, with the right text |
| LoginForm.LoginAcceptedIff | frontend/src/components/Login/Login.jsx:32-33 | the form is valid exactly when the email fits the regular expression and the password has at least 6 UTF-16 code units |
| LoginForm.PaddedEmailRefused | frontend/src/components/Login/Login.jsx:19-22 | a padded, non-blank email gets the invalid message, not "required" |
| LoginForm.AcceptedEmailUntrimmed | frontend/src/components/Login/Login.jsx:19-21 | an email the form accepts is unchanged by the server's trim |
| LoginForm.AcceptedPasswordOnServer | frontend/src/components/Login/Login.jsx:28 | a password the form accepts passes the server exactly when it has 6 to 128 characters; without characters outside the Basic Multilingual Plane, exactly when it has at most 128 |
| LoginForm.ServerAcceptedPasswordPassesForm | frontend/src/components/Login/Login.jsx:28 | a password the server accepts never gets the form's password message |
| LoginForm.AstralPasswordPassesFormOnly | frontend/src/components/Login/Login.jsx:28 | three emoji pass the form's password rule and are refused by the server's |
| LoginForm.LoginForm.ValidateForm | frontend/src/components/Login/Login.jsx:15-34 | stores the form's messages and returns true exactly when there are none |
| LoginForm.LoginForm.HandleSubmit | frontend/src/components/Login/Login.jsx:36-53 | `login` is called exactly when the form is valid; a resolved login navigates to `/welcome`; `isSubmitting` is reset |
| LoginForm.LoginForm.ChangeEmail | frontend/src/components/Login/Login.jsx:55-60 | the email is replaced and only its own message is cleared |
| LoginForm.LoginForm.ChangePassword | frontend/src/components/Login/Login.jsx:62-67 | the password is replaced and only its own message is cleared |
| RegisterForm.ConfirmMessage | frontend/src/components/Register/Register.jsx:31-35 | "Please confirm your password" exactly when empty, the mismatch message exactly when non-empty and different |
| RegisterForm.ValidateRegister | frontend/src/components/Register/Register.jsx:16-39 | email and password messages are the login form's; the confirmation has a message exactly when its rule gives one |
| RegisterForm.RegisterAcceptedIff | frontend/src/components/Register/Register.jsx:37-38 | valid exactly when the email fits, the password has at least 6 UTF-16 code units and the confirmation repeats it |
| RegisterForm.MismatchReportedWithShortPassword | frontend/src/components/Register/Register.jsx:25-35 | a mismatch is reported alongside a too-short password |
| RegisterForm.RegisterForm.ValidateForm | frontend/src/components/Register/Register.jsx:16-39 | stores the messages and returns true exactly when there are none |
| RegisterForm.RegisterForm.HandleSubmit | frontend/src/components/Register/Register.jsx:41-60 | `register` is called exactly when the form is valid; `success` becomes true only once it resolves; `isSubmitting` is reset |
| RegisterForm.RegisterForm.ChangeEmail | frontend/src/components/Register/Register.jsx:86-89 | the email is replaced and only its own message is cleared |
| RegisterForm.RegisterForm.ChangePassword | frontend/src/components/Register/Register.jsx:108-111 | the password is replaced and only its own message is cleared |
| RegisterForm.RegisterForm.ChangeConfirmPassword | frontend/src/components/Register/Register.jsx:130-133 | the confirmation is replaced and only its own message is cleared |
| AuthContext.ErrorMessage | frontend/src/context/AuthContext.jsx:49 | `err.error` when set; otherwise the first detail's message when there is a non-empty one; otherwise the fallback; never empty with a non-empty fallback |
| AuthContext.CheckAuthStep | frontend/src/context/AuthContext.jsx:13-35 | a request exactly when a token is stored; the token removed exactly when that request is rejected; signed in exactly after a successful request, and then the flag and the user agree; loading cleared |
| AuthContext.LoginStep | frontend/src/context/AuthContext.jsx:40-55 | the outcome is passed on; success stores the user, signs in and clears the message; failure keeps the session and shows a non-empty message |
| AuthContext.RegisterStep | frontend/src/context/AuthContext.jsx:57-70 | the rejection, if any, is rethrown; the session is untouched; a message is shown exactly on rejection |
| AuthContext.LogoutStep | frontend/src/context/AuthContext.jsx:72-85 | success clears user, flag and message; failure keeps the session and shows `err.error` or "Logout failed" |
| AuthContext.Rejection | frontend/src/context/AuthContext.jsx:48-49 | the rejected value's `error` is the error response body's; for a validation body its `details` are the body's entries' messages in order, otherwise there are none; a body without `error` gives an empty one |
| AuthContext.ValidationDetailsNeverShown | frontend/src/context/AuthContext.jsx:49 | a validation 400 shows "Validation failed", never a field message |
| AuthContext.LoadingAlwaysCleared | frontend/src/context/AuthContext.jsx:32-84 | `loading` is false after every operation, whatever the outcome |
| AuthContext.CheckAuthOutcomes | frontend/src/context/AuthContext.jsx:13-35 | no request without a token, and then signed out; a rejection signs out and removes the token; success signs in and clears the error |
| AuthContext.FailuresRethrow | frontend/src/context/AuthContext.jsx:48-66 | a failed login or registration keeps the session, shows a non-empty message and rethrows the same error |
| AuthContext.RegisterKeepsSession | frontend/src/context/AuthContext.jsx:57-70 | registration never changes `user` or `isAuthenticated` |
| AuthContext.LogoutOutcomes | frontend/src/context/AuthContext.jsx:72-85 | a failed logout changes only the message; a successful one clears user, flag and message |
| AuthContext.SyncedPreserved | frontend/src/context/AuthContext.jsx:12-85 | login, register, logout and the mount-time `checkAuth` keep `isAuthenticated` equal to "a user is known" |
| AuthContext.CheckAuthCanDesync | frontend/src/context/AuthContext.jsx:16-19 | run outside the mount state, the no-token branch clears the flag but keeps the user |
| AuthContext.SignInSignOut | frontend/src/context/AuthContext.jsx:13-85 | mount without a token, log in, log out: back to the signed-out state |
| AuthContext.AuthProvider.constructor | frontend/src/context/AuthContext.jsx:7-10 | the provider mounts with no user, loading, no error, signed out |
| AuthContext.AuthProvider.CheckAuth | frontend/src/context/AuthContext.jsx:13-35 | the fields change exactly as the `checkAuth` transition says, and it reports the request and the token removal |
| AuthContext.AuthProvider.Login | frontend/src/context/AuthContext.jsx:40-55 | the fields change exactly as the login transition says, and the outcome is returned or rethrown |
| AuthContext.AuthProvider.Register | frontend/src/context/AuthContext.jsx:57-70 | the fields change exactly as the register transition says, and a rejection is rethrown |
| AuthContext.AuthProvider.Logout | frontend/src/context/AuthContext.jsx:72-85 | the fields change exactly as the logout transition says |

## Left out

- The MySQL `users` table is an in-memory map keyed by the exact email string. Its collation, which may compare emails case-insensitively, is not modelled. Nor are the connection pool and its `release`.
- Concurrency: two registrations racing between the lookup and the insert are not modelled. Every operation runs to completion alone.
- bcrypt, jsonwebtoken, express-validator's `isEmail`, express-rate-limit's counting and window store, and `ipKeyGenerator` are abstract functions or oracles. Only the properties stated in the lemmas' requires are assumed of them.
- Logging is modelled only as the record the error handler would pass to the logger. The logger's file and console output, and the controllers' and gate's own log calls, are left out as I/O.
- The API client (frontend/src/api/authApi.js) is not part of this model. Its `localStorage` writes, its redirect to `/login` on a 401, and its fallback error objects when there is no response are left out. The context's methods take the client's outcome as a parameter, and `CheckAuth` reports the token removal instead of performing it.
- server.js, App.js and Welcome.jsx (framework wiring, CORS, routing, rendering) are not part of this model. Nor is any JSX markup.
- Cookie transport flags (`httpOnly`, `sameSite`) and the mechanics of `clearCookie` are left out. Only the cookie's token, `maxAge` and `secure` flag are modelled.
- The registration page's delayed navigation (`setTimeout`) is left out, and so is `e.preventDefault()`.
- JSON bodies carry strings only. A non-string `email` or `password` (a number, an object) is not modelled; a missing one is validated as the empty string.
- The 400 body's `field` entry is written as the field's name. The source reads `err.param`, which some express-validator versions call `path`; that difference is not modelled.
- Tokens without an `exp` claim, and verification failures other than "expired" and "malformed", are outside the abstract token library. The gate's 500 branch is modelled in `AuthMiddleware.Classify` but is unreachable with that library.
- `parseInt` is modelled on decimal digits with unbounded integers. JavaScript's loss of precision above 2^53 is not modelled.
- Date and time come in as a millisecond parameter. Reading the clock is left out.
- The `DB` block of the configuration record (config.js:7-12: host, user, password and database name) is not part of `Config.Load`; the database connection is not modelled.
- Validation.PasswordErrors: counts every character (code point). express-validator's `isLength`, a library outside the model, is believed also to leave U+FE0E and U+FE0F out of its count; a password holding those selectors can be judged differently. The same holds for `Validation.PasswordAcceptedIff`, `Validation.ValidationVerdict` and `LoginForm.AcceptedPasswordOnServer`, which state the server's rule in characters.
- Validation.EmailErrors: the 255-character limit counts every character (code point). express-validator's `isLength` is believed to leave U+FE0E and U+FE0F out of its count, so an email holding those selectors can be judged differently. The same holds for `Validation.EmailAcceptedIff`.
- RateLimiter.Key: what `ipKeyGenerator` returns when given a request object instead of an address is a parameter (`reqKey`); the library's handling of that argument is not modelled.
- Routes.Answer: a route context carries one stack trace, used for whatever error that route raises. Stack traces are not derived from throw sites; `Scenarios.LoginRefusalsLookAlike` gives the two refusals separate traces as parameters.
- LoginForm.LoginForm.HandleSubmit: the exception a rejected `login` logs to the console is not modelled; only whether navigation happens is.
- RegisterForm.RegisterForm.HandleSubmit: the console log on rejection and the two-second delayed navigation to `/login` are not modelled.
