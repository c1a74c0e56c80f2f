/** The login form (frontend/src/components/Login/Login.jsx): its
    `validateForm`, the guard in `handleSubmit` that keeps an invalid form
    from calling `login`, and the two change handlers. The form's state is
    a class; the context's `login` and the router's `navigate` are outside
    it, so `HandleSubmit` takes whether `login` resolves and reports what
    it called. */
module LoginForm {
  import opened Common
  import opened Text
  import opened EmailPattern
  import opened FormRules
  import Validation

  /** `validateForm`'s `newErrors`: at most one message per field, email
      first. */
  function ValidateLogin(email: string, password: string): (errs: Errors)
    ensures errs.Keys <= {EmailField, PasswordField}
    ensures EmailField in errs <==> !Matches(email)
    ensures PasswordField in errs <==> JsLength(password) < PasswordMinLength
    ensures EmailField in errs ==> errs[EmailField] == (if Trim(email) == "" then EmailRequired else EmailInvalid)
    ensures PasswordField in errs ==>
              errs[PasswordField] == (if password == "" then PasswordRequired else PasswordTooShort)
    ensures forall f :: f in errs ==> Shown(errs, f)
  {
    Record(Record(map[], EmailField, EmailMessage(email)), PasswordField, PasswordMessage(password))
  }

  /** The form is accepted exactly when the email matches the pattern and
      the password is at least six UTF-16 code units long. */
  lemma LoginAcceptedIff(email: string, password: string)
    ensures ValidateLogin(email, password) == map[] <==> Pattern(email) && JsLength(password) >= PasswordMinLength
  {
    var errs := ValidateLogin(email, password);
    MatchesIff(email);
    if errs != map[] {
      var f :| f in errs;
      assert f == EmailField || f == PasswordField;
    }
  }

  /** An address with white space around it is refused as invalid (not as
      missing), though the server would have trimmed it. */
  lemma PaddedEmailRefused(email: string, password: string)
    requires Trim(email) != email && !AllWs(email)
    ensures ValidateLogin(email, password)[EmailField] == EmailInvalid
  {
    TrimEmptyIffAllWs(email);
    PaddedNeverMatches(email);
  }

  /** An address the form lets through is one the server's trimming leaves
      unchanged, so the account is stored under exactly what was typed. */
  lemma AcceptedEmailUntrimmed(email: string, password: string)
    requires ValidateLogin(email, password) == map[]
    ensures Trim(email) == email && email != ""
  {
    assert EmailField !in ValidateLogin(email, password);
    MatchedIsTrimmed(email);
  }

  /** The form measures the password in UTF-16 code units and the server
      in characters. A password the form lets through passes the server
      exactly when it has 6 to 128 characters; when it holds no character
      outside the Basic Multilingual Plane the two measures agree, and only
      the server's maximum of 128 is left unchecked by the form. */
  lemma AcceptedPasswordOnServer(email: string, password: string)
    requires ValidateLogin(email, password) == map[]
    ensures Validation.PasswordErrors(password) == [] <==> 6 <= |password| <= 128
    ensures (forall i :: 0 <= i < |password| ==> !Astral(password[i])) ==>
              (Validation.PasswordErrors(password) == [] <==> |password| <= 128)
  {
    assert PasswordField !in ValidateLogin(email, password);
    Validation.PasswordAcceptedIff(password);
  }

  /** A password the server accepts always passes the form's length rule:
      it has at least six characters, so at least six code units. */
  lemma ServerAcceptedPasswordPassesForm(email: string, password: string)
    requires Validation.PasswordErrors(password) == []
    ensures PasswordField !in ValidateLogin(email, password)
  {
    Validation.PasswordAcceptedIff(password);
  }

  /** The two measures disagree: three emoji pass the form, whose
      `password.length` is 6, and are refused by the server, which counts 3
      characters. */
  lemma AstralPasswordPassesFormOnly()
    ensures var p := "\U{1F600}\U{1F600}\U{1F600}";
      PasswordField !in ValidateLogin("a@b.c", p) && Validation.PasswordErrors(p) != []
  {
    ThreeAstralCharactersPass();
    Validation.PasswordAcceptedIff("\U{1F600}\U{1F600}\U{1F600}");
  }

  /** `validateForm`'s two `if` chains, run one after the other, build
      `ValidateLogin`'s messages. */
  lemma ValidateLoginBuilt(email: string, password: string, afterEmail: Errors, errs: Errors)
    requires afterEmail == if Trim(email) == "" then map[EmailField := EmailRequired]
                           else if !Matches(email) then map[EmailField := EmailInvalid]
                           else map[]
    requires errs == if password == "" then afterEmail[PasswordField := PasswordRequired]
                     else if JsLength(password) < PasswordMinLength then afterEmail[PasswordField := PasswordTooShort]
                     else afterEmail
    ensures errs == ValidateLogin(email, password)
  {
    assert afterEmail == Record(map[], EmailField, EmailMessage(email));
  }

  class LoginForm {
    var email: string
    var password: string
    var errors: Errors
    var isSubmitting: bool

    constructor ()
      ensures email == "" && password == "" && errors == map[] && !isSubmitting
    {
      email := "";
      password := "";
      errors := map[];
      isSubmitting := false;
    }

    /** `validateForm`: builds the messages one rule at a time, stores them
        and reports whether there were none. */
    method ValidateForm() returns (valid: bool)
      modifies this
      ensures errors == ValidateLogin(email, password)
      ensures valid <==> errors == map[]
      ensures email == old(email) && password == old(password) && isSubmitting == old(isSubmitting)
    {
      var newErrors: Errors := map[];
      if Trim(email) == "" {
        newErrors := newErrors[EmailField := EmailRequired];
      } else if !Matches(email) {
        newErrors := newErrors[EmailField := EmailInvalid];
      }
      ghost var afterEmail := newErrors;
      if password == "" {
        newErrors := newErrors[PasswordField := PasswordRequired];
      } else if JsLength(password) < PasswordMinLength {
        newErrors := newErrors[PasswordField := PasswordTooShort];
      }
      ValidateLoginBuilt(email, password, afterEmail, newErrors);
      errors := newErrors;
      valid := newErrors == map[];
    }

    /** `handleSubmit`: an invalid form returns before `login`; otherwise
        `login` is awaited, a resolved login navigates to the welcome page,
        and `isSubmitting` is reset whatever the outcome. */
    method HandleSubmit(loginResolves: bool) returns (loginCalled: bool, navigateTo: Option<string>)
      modifies this
      ensures email == old(email) && password == old(password)
      ensures errors == ValidateLogin(email, password)
      ensures loginCalled <==> ValidateLogin(email, password) == map[]
      ensures navigateTo == if loginCalled && loginResolves then Some("/welcome") else None
      ensures isSubmitting == if loginCalled then false else old(isSubmitting)
    {
      var valid := ValidateForm();
      if !valid {
        return false, None;
      }
      isSubmitting := true;
      loginCalled := true;
      navigateTo := if loginResolves then Some("/welcome") else None;
      isSubmitting := false;
    }

    /** `handleEmailChange` */
    method ChangeEmail(value: string)
      modifies this
      ensures email == value && password == old(password) && isSubmitting == old(isSubmitting)
      ensures errors == ClearOnEdit(old(errors), EmailField)
    {
      email := value;
      if Shown(errors, EmailField) {
        errors := errors[EmailField := ""];
      }
    }

    /** `handlePasswordChange` */
    method ChangePassword(value: string)
      modifies this
      ensures password == value && email == old(email) && isSubmitting == old(isSubmitting)
      ensures errors == ClearOnEdit(old(errors), PasswordField)
    {
      password := value;
      if Shown(errors, PasswordField) {
        errors := errors[PasswordField := ""];
      }
    }
  }
}
