/** The registration form (frontend/src/components/Register/Register.jsx):
    the login form's email and password rules plus the confirmation field,
    the guard in `handleSubmit`, the `success` flag, and the three change
    handlers. As for the login form, whether the context's `register`
    resolves is a parameter. */
module RegisterForm {
  import opened Common
  import opened Text
  import opened EmailPattern
  import opened FormRules
  import LoginForm

  const ConfirmRequired := "Please confirm your password"
  const ConfirmMismatch := "Passwords do not match"

  /** The confirmation rule: empty, else different from the password. It
      does not look at whether the password itself is acceptable. */
  function ConfirmMessage(password: string, confirmPassword: string): (m: Option<string>)
    ensures m == Some(ConfirmRequired) <==> confirmPassword == ""
    ensures m == Some(ConfirmMismatch) <==> confirmPassword != "" && confirmPassword != password
    ensures m.None? <==> confirmPassword != "" && confirmPassword == password
  {
    if confirmPassword == "" then Some(ConfirmRequired)
    else if password != confirmPassword then Some(ConfirmMismatch)
    else None
  }

  /** `validateForm`'s `newErrors`: the login form's messages for email and
      password, and the confirmation's message. */
  function ValidateRegister(email: string, password: string, confirmPassword: string): (errs: Errors)
    ensures var login := LoginForm.ValidateLogin(email, password);
      && (EmailField in errs <==> EmailField in login)
      && (EmailField in errs ==> errs[EmailField] == login[EmailField])
      && (PasswordField in errs <==> PasswordField in login)
      && (PasswordField in errs ==> errs[PasswordField] == login[PasswordField])
    ensures ConfirmField in errs <==> ConfirmMessage(password, confirmPassword).Some?
    ensures ConfirmField in errs ==> errs[ConfirmField] == ConfirmMessage(password, confirmPassword).value
  {
    Record(LoginForm.ValidateLogin(email, password), ConfirmField, ConfirmMessage(password, confirmPassword))
  }

  /** The form is accepted exactly when the email matches the pattern, the
      password is at least six UTF-16 code units long and the confirmation
      repeats it. */
  lemma RegisterAcceptedIff(email: string, password: string, confirmPassword: string)
    ensures ValidateRegister(email, password, confirmPassword) == map[] <==>
              Pattern(email) && JsLength(password) >= PasswordMinLength && confirmPassword == password
  {
    var errs := ValidateRegister(email, password, confirmPassword);
    var login := LoginForm.ValidateLogin(email, password);
    LoginForm.LoginAcceptedIff(email, password);
    if errs != map[] && ConfirmField !in errs {
      var f :| f in errs;
      assert f in login;
    }
    if login != map[] {
      var f :| f in login;
      assert f in errs;
    }
  }

  /** A mismatch is reported even when the password is itself too short:
      such a form shows a message under both fields. */
  lemma MismatchReportedWithShortPassword(email: string, password: string, confirmPassword: string)
    requires 0 < JsLength(password) < PasswordMinLength
    requires confirmPassword != "" && confirmPassword != password
    ensures var errs := ValidateRegister(email, password, confirmPassword);
      && errs[PasswordField] == PasswordTooShort
      && errs[ConfirmField] == ConfirmMismatch
  {
  }

  /** `validateForm`'s three `if` chains, run one after the other, build
      `ValidateRegister`'s messages. */
  lemma ValidateRegisterBuilt(email: string, password: string, confirmPassword: string,
                              afterEmail: Errors, afterPassword: Errors, errs: Errors)
    requires afterEmail == if Trim(email) == "" then map[EmailField := EmailRequired]
                           else if !Matches(email) then map[EmailField := EmailInvalid]
                           else map[]
    requires afterPassword == if password == "" then afterEmail[PasswordField := PasswordRequired]
                              else if JsLength(password) < PasswordMinLength then afterEmail[PasswordField := PasswordTooShort]
                              else afterEmail
    requires errs == if confirmPassword == "" then afterPassword[ConfirmField := ConfirmRequired]
                     else if password != confirmPassword then afterPassword[ConfirmField := ConfirmMismatch]
                     else afterPassword
    ensures errs == ValidateRegister(email, password, confirmPassword)
  {
    LoginForm.ValidateLoginBuilt(email, password, afterEmail, afterPassword);
    assert errs == Record(afterPassword, ConfirmField, ConfirmMessage(password, confirmPassword));
  }

  class RegisterForm {
    var email: string
    var password: string
    var confirmPassword: string
    var errors: Errors
    var isSubmitting: bool
    var success: bool

    constructor ()
      ensures email == "" && password == "" && confirmPassword == ""
      ensures errors == map[] && !isSubmitting && !success
    {
      email := "";
      password := "";
      confirmPassword := "";
      errors := map[];
      isSubmitting := false;
      success := false;
    }

    /** `validateForm` */
    method ValidateForm() returns (valid: bool)
      modifies this
      ensures errors == ValidateRegister(email, password, confirmPassword)
      ensures valid <==> errors == map[]
      ensures email == old(email) && password == old(password) && confirmPassword == old(confirmPassword)
      ensures isSubmitting == old(isSubmitting) && success == old(success)
    {
      var newErrors: Errors := map[];
      if Trim(email) == "" {
        newErrors := newErrors[EmailField := EmailRequired];
      } else if !Matches(email) {
        newErrors := newErrors[EmailField := EmailInvalid];
      }
      ghost var afterEmail := newErrors;
      if password == "" {
        newErrors := newErrors[PasswordField := PasswordRequired];
      } else if JsLength(password) < PasswordMinLength {
        newErrors := newErrors[PasswordField := PasswordTooShort];
      }
      ghost var afterPassword := newErrors;
      if confirmPassword == "" {
        newErrors := newErrors[ConfirmField := ConfirmRequired];
      } else if password != confirmPassword {
        newErrors := newErrors[ConfirmField := ConfirmMismatch];
      }
      ValidateRegisterBuilt(email, password, confirmPassword, afterEmail, afterPassword, newErrors);
      errors := newErrors;
      valid := newErrors == map[];
    }

    /** `handleSubmit`: an invalid form returns before `register`;
        otherwise `register` is awaited and `success` is set only once it
        resolves; `isSubmitting` is reset whatever the outcome. */
    method HandleSubmit(registerResolves: bool) returns (registerCalled: bool)
      modifies this
      ensures email == old(email) && password == old(password) && confirmPassword == old(confirmPassword)
      ensures errors == ValidateRegister(email, password, confirmPassword)
      ensures registerCalled <==> ValidateRegister(email, password, confirmPassword) == map[]
      ensures success <==> old(success) || (registerCalled && registerResolves)
      ensures isSubmitting == if registerCalled then false else old(isSubmitting)
    {
      var valid := ValidateForm();
      if !valid {
        return false;
      }
      isSubmitting := true;
      registerCalled := true;
      if registerResolves {
        success := true;
      }
      isSubmitting := false;
    }

    method ChangeEmail(value: string)
      modifies this
      ensures email == value && password == old(password) && confirmPassword == old(confirmPassword)
      ensures errors == ClearOnEdit(old(errors), EmailField)
      ensures isSubmitting == old(isSubmitting) && success == old(success)
    {
      email := value;
      if Shown(errors, EmailField) {
        errors := errors[EmailField := ""];
      }
    }

    method ChangePassword(value: string)
      modifies this
      ensures password == value && email == old(email) && confirmPassword == old(confirmPassword)
      ensures errors == ClearOnEdit(old(errors), PasswordField)
      ensures isSubmitting == old(isSubmitting) && success == old(success)
    {
      password := value;
      if Shown(errors, PasswordField) {
        errors := errors[PasswordField := ""];
      }
    }

    method ChangeConfirmPassword(value: string)
      modifies this
      ensures confirmPassword == value && email == old(email) && password == old(password)
      ensures errors == ClearOnEdit(old(errors), ConfirmField)
      ensures isSubmitting == old(isSubmitting) && success == old(success)
    {
      confirmPassword := value;
      if Shown(errors, ConfirmField) {
        errors := errors[ConfirmField := ""];
      }
    }
  }
}
