/** Server-side input validation (backend/middleware/validation.js): the
    express-validator chains of `validateAuthInput` and the
    `handleValidationErrors` middleware that turns collected errors into a
    400 response. `isEmail` belongs to the validator library and is a
    parameter. Each chain runs all its checks, so one field can collect two
    errors; a missing field is validated as the empty string. */
module Validation {
  import opened Common
  import opened Text
  import opened Http
  import opened Config

  const InvalidEmailMessage := "Invalid email address"

  function EmailTooLongMessage(): string {
    "Email must not exceed " + DecimalString(EmailMaxLength) + " characters"
  }

  function PasswordLengthMessage(): string {
    "Password must be between " + DecimalString(PasswordMinLength) + " and "
      + DecimalString(PasswordMaxLength) + " characters"
  }

  /** The value a chain sees for a field of the body. */
  function FieldValue(v: Option<string>): string {
    if v.Some? then v.value else ""
  }

  /** `body('email').trim().isEmail()…isLength({max: 255})…`: both checks run
      on the trimmed value, each adding its own message when it fails. */
  function EmailErrors(email: string, isEmail: string -> bool): (errs: seq<FieldError>)
    ensures |errs| <= 2
    ensures forall i :: 0 <= i < |errs| ==> errs[i].field == "email"
    ensures FieldError("email", InvalidEmailMessage) in errs <==> !isEmail(Trim(email))
    ensures FieldError("email", EmailTooLongMessage()) in errs <==> |Trim(email)| > EmailMaxLength
  {
    var t := Trim(email);
    (if isEmail(t) then [] else [FieldError("email", InvalidEmailMessage)])
      + (if |t| <= EmailMaxLength then [] else [FieldError("email", EmailTooLongMessage())])
  }

  /** `body('password').isLength({min: 6, max: 128})`: one message for both
      bounds; the password is not trimmed. */
  function PasswordErrors(password: string): (errs: seq<FieldError>)
    ensures errs == [] || errs == [FieldError("password", PasswordLengthMessage())]
  {
    if PasswordMinLength <= |password| <= PasswordMaxLength then []
    else [FieldError("password", PasswordLengthMessage())]
  }

  /** `validateAuthInput`: the request with its email replaced by the
      trimmed value and the email errors, then the password errors, added in
      that order. */
  function ValidateAuthInput(req: Request, isEmail: string -> bool): (r: Request)
    ensures r.email == Some(Trim(FieldValue(req.email)))
    ensures r.validationErrors == req.validationErrors + EmailErrors(FieldValue(req.email), isEmail) + PasswordErrors(FieldValue(req.password))
    ensures r == req.(email := r.email, validationErrors := r.validationErrors)
  {
    var email := FieldValue(req.email);
    req.(email := Some(Trim(email)),
         validationErrors := req.validationErrors + EmailErrors(email, isEmail) + PasswordErrors(FieldValue(req.password)))
  }

  /** `handleValidationErrors`: no response (`next()`) when nothing was
      collected; otherwise a 400 with one `{field, message}` per error, in
      the order collected. */
  function HandleValidationErrors(req: Request): (r: Option<Response>)
    ensures r.None? <==> req.validationErrors == []
    ensures r.Some? ==> r.value == Response(400, ValidationBody("Validation failed", req.validationErrors), NoCookie)
  {
    if req.validationErrors == [] then None
    else Some(Response(400, ValidationBody("Validation failed", req.validationErrors), NoCookie))
  }

  /** A password passes exactly when its length lies in [6, 128]. */
  lemma PasswordAcceptedIff(password: string)
    ensures PasswordErrors(password) == [] <==> 6 <= |password| <= 128
  {
  }

  /** An email passes exactly when its trimmed value satisfies `isEmail`
      and is at most 255 characters long. */
  lemma EmailAcceptedIff(email: string, isEmail: string -> bool)
    ensures EmailErrors(email, isEmail) == [] <==> isEmail(Trim(email)) && |Trim(email)| <= 255
  {
    var t := Trim(email);
    if !isEmail(t) {
      assert FieldError("email", InvalidEmailMessage) in EmailErrors(email, isEmail);
    }
  }

  /** The email is trimmed before it is checked: surrounding white space
      never changes the verdict. */
  lemma EmailTrimmedFirst(email: string, isEmail: string -> bool)
    ensures EmailErrors(email, isEmail) == EmailErrors(Trim(email), isEmail)
  {
    TrimIdempotent(email);
    SameTrimSameErrors(email, Trim(email), isEmail);
  }

  /** The email chain looks only at the trimmed value. */
  lemma SameTrimSameErrors(a: string, b: string, isEmail: string -> bool)
    requires Trim(a) == Trim(b)
    ensures EmailErrors(a, isEmail) == EmailErrors(b, isEmail)
  {
  }

  /** A fresh request passes validation exactly when both fields are
      acceptable; when it does not, the 400 lists the email's errors before
      the password's and nothing else. */
  lemma ValidationVerdict(req: Request, isEmail: string -> bool)
    requires req.validationErrors == []
    ensures var email := FieldValue(req.email);
      var password := FieldValue(req.password);
      var r := HandleValidationErrors(ValidateAuthInput(req, isEmail));
      && (r.None? <==> isEmail(Trim(email)) && |Trim(email)| <= 255 && 6 <= |password| <= 128)
      && (r.Some? ==> r.value.status == 400
                      && r.value.body.details == EmailErrors(email, isEmail) + PasswordErrors(password))
  {
    EmailAcceptedIff(FieldValue(req.email), isEmail);
    PasswordAcceptedIff(FieldValue(req.password));
  }
}
