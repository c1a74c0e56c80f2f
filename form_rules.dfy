/** What the login and registration forms share: the client-side email and
    password rules with their messages, the `errors` object of the form's
    state, and the change handlers' error clearing. Both components
    (frontend/src/components/Login/Login.jsx and
    frontend/src/components/Register/Register.jsx) spell these out alike. */
module FormRules {
  import opened Common
  import opened Text
  import opened EmailPattern

  datatype Field = EmailField | PasswordField | ConfirmField

  /** The `errors` object: the fields that have a key. A key whose message
      is the empty string is present but shows nothing. */
  type Errors = map<Field, string>

  const EmailRequired := "Email is required"
  const EmailInvalid := "Please enter a valid email address"
  const PasswordRequired := "Password is required"
  const PasswordTooShort := "Password must be at least 6 characters"
  const PasswordMinLength := 6

  /** `errors.<field>` is truthy: the message is displayed. */
  predicate Shown(errs: Errors, f: Field) {
    f in errs && errs[f] != ""
  }

  /** The email rule: blank once trimmed, else the untrimmed value tested
      against the pattern. */
  function EmailMessage(email: string): (m: Option<string>)
    ensures m == Some(EmailRequired) <==> Trim(email) == ""
    ensures m == Some(EmailInvalid) <==> Trim(email) != "" && !Matches(email)
    ensures m.None? <==> Matches(email)
  {
    assert Matches(email) ==> Trim(email) != "" by {
      if Matches(email) {
        MatchedIsTrimmed(email);
      }
    }
    if Trim(email) == "" then Some(EmailRequired)
    else if !Matches(email) then Some(EmailInvalid)
    else None
  }

  /** What the email rule means: "required" exactly for an all-white-space
      value, and no message exactly for a value the regular expression
      matches. */
  lemma EmailRuleMeaning(email: string)
    ensures EmailMessage(email) == Some(EmailRequired) <==> AllWs(email)
    ensures EmailMessage(email).None? <==> Pattern(email)
  {
    TrimEmptyIffAllWs(email);
    MatchesIff(email);
  }

  /** The password rule: empty, else shorter than six by JavaScript's
      `password.length`, which counts UTF-16 code units, so a character
      outside the Basic Multilingual Plane counts as two. */
  function PasswordMessage(password: string): (m: Option<string>)
    ensures m == Some(PasswordRequired) <==> password == ""
    ensures m == Some(PasswordTooShort) <==> 0 < JsLength(password) < PasswordMinLength
    ensures m.None? <==> JsLength(password) >= PasswordMinLength
    ensures |password| >= PasswordMinLength ==> m.None?
  {
    if password == "" then Some(PasswordRequired)
    else if JsLength(password) < PasswordMinLength then Some(PasswordTooShort)
    else None
  }

  /** Three emoji are six code units long: the form accepts them as a
      password, though they are only three characters. */
  lemma ThreeAstralCharactersPass()
    ensures PasswordMessage("\U{1F600}\U{1F600}\U{1F600}").None?
  {
    var p := "\U{1F600}\U{1F600}\U{1F600}";
    assert Astral(p[0]) && Astral(p[1]) && Astral(p[2]);
    assert p[1..][1..][1..] == [];
    assert JsLength(p[1..][1..]) == 2;
    assert JsLength(p[1..]) == 4;
  }

  /** `newErrors.<field> = message` when the rule produced one: the field
      gains a key holding exactly that message, and every other field keeps
      its key and its message. */
  function Record(errs: Errors, f: Field, m: Option<string>): (r: Errors)
    ensures r.Keys == (if m.Some? then errs.Keys + {f} else errs.Keys)
    ensures m.Some? ==> r[f] == m.value
    ensures forall g :: g in errs && (g != f || m.None?) ==> r[g] == errs[g]
  {
    if m.Some? then errs[f := m.value] else errs
  }

  /** A change handler's clearing: `if (errors.f) setErrors({...errors, f: ''})`.
      The edited field's message no longer shows, every key stays, and
      every other field keeps its message. */
  function ClearOnEdit(errs: Errors, f: Field): (r: Errors)
    ensures r.Keys == errs.Keys
    ensures !Shown(r, f)
    ensures forall g :: g != f && g in errs ==> r[g] == errs[g]
    ensures !Shown(errs, f) ==> r == errs
  {
    if Shown(errs, f) then errs[f := ""] else errs
  }

  /** Editing a field twice clears no more than editing it once. */
  lemma ClearOnEditIdempotent(errs: Errors, f: Field)
    ensures ClearOnEdit(ClearOnEdit(errs, f), f) == ClearOnEdit(errs, f)
  {
  }

  /** Every message either rule produces is a non-empty string, so a
      recorded error is always displayed. */
  lemma MessagesShow(email: string, password: string)
    ensures EmailMessage(email).Some? ==> EmailMessage(email).value != ""
    ensures PasswordMessage(password).Some? ==> PasswordMessage(password).value != ""
  {
  }
}
