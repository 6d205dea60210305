/**
 * The registration form: its per-field validator, the change handler that
 * clears a field's error, and the validation gate in front of `register`.
 * The component's state (`formData`, `errors`, `isLoading`,
 * `successMessage`) is the state of a `RegisterForm` object; the outcome of
 * the `register` call is a parameter.
 */
module RegisterPage {
  import opened Common
  import Serializers

  datatype Field = Username | Email | Password | Password2

  /**
   * A key of the error map: an input's `name` ("username", "email",
   * "password", "password2"), or "submit" for a failed `register` call.
   */
  datatype ErrorKey = FieldKey(field: Field) | SubmitKey

  datatype FormData = FormData(username: string, email: string, password: string, password2: string)

  function Get(d: FormData, f: Field): string {
    match f
    case Username => d.username
    case Email => d.email
    case Password => d.password
    case Password2 => d.password2
  }

  /** `{ ...prev, [name]: value }`. */
  function With(d: FormData, f: Field, value: string): (r: FormData)
    ensures Get(r, f) == value
    ensures forall g :: g != f ==> Get(r, g) == Get(d, g)
  {
    match f
    case Username => d.(username := value)
    case Email => d.(email := value)
    case Password => d.(password := value)
    case Password2 => d.(password2 := value)
  }

  const UsernameRequired: string := "Username is required"
  const UsernameTooShort: string := "Username must be at least 3 characters"
  const EmailRequired: string := "Email is required"
  const EmailMalformed: string := "Please enter a valid email address"
  const PasswordRequired: string := "Password is required"
  const PasswordTooShort: string := "Password must be at least 8 characters"
  const ConfirmationRequired: string := "Please confirm your password"
  const ConfirmationMismatch: string := "Passwords do not match"
  const RegisteredDefault: string := "Registration successful!"
  const SubmitFailedDefault: string := "Registration failed. Please try again."

  // ---------------------------------------------------------------------------
  // The e-mail shape /^[^\s@]+@[^\s@]+\.[^\s@]+$/
  // ---------------------------------------------------------------------------

  /** A character of the class `[^\s@]`. */
  predicate IsAddressChar(c: char) { !IsWhitespace(c) && c != '@' }

  /** A non-empty run of `[^\s@]`. */
  predicate IsAddressPart(t: string) {
    t != [] && forall i :: 0 <= i < |t| ==> IsAddressChar(t[i])
  }

  /** The regular expression, read as "local part, `@`, domain, `.`, suffix". */
  ghost predicate EmailPattern(s: string) {
    exists at, dot ::
      0 < at && at + 1 < dot < |s| - 1 && s[at] == '@' && s[dot] == '.' &&
      IsAddressPart(s[..at]) && IsAddressPart(s[at + 1..dot]) && IsAddressPart(s[dot + 1..])
  }

  /** Index of the first `c` in `s`, or `|s|` when there is none. */
  function FirstIndexOf(s: string, c: char): (r: nat)
    ensures r <= |s|
    ensures r < |s| ==> s[r] == c
    ensures forall i :: 0 <= i < r ==> s[i] != c
  {
    if s == [] then 0
    else if s[0] == c then 0
    else 1 + FirstIndexOf(s[1..], c)
  }

  /**
   * The executable test: one `@`, not first, no whitespace anywhere, and a
   * `.` after the `@` with at least one character on each side of it.
   */
  predicate IsEmailShaped(s: string) {
    var at := FirstIndexOf(s, '@');
    0 < at < |s| &&
    (forall i :: 0 <= i < |s| && i != at ==> IsAddressChar(s[i])) &&
    (exists k :: at + 1 < k < |s| - 1 && s[k] == '.')
  }

  /** The executable test accepts exactly the strings the pattern matches. */
  lemma EmailShapeIsPattern(s: string)
    ensures IsEmailShaped(s) <==> EmailPattern(s)
  {
    if IsEmailShaped(s) {
      ShapedMatchesPattern(s);
    }
    if EmailPattern(s) {
      PatternIsShaped(s);
    }
  }

  lemma ShapedMatchesPattern(s: string)
    requires IsEmailShaped(s)
    ensures EmailPattern(s)
  {
    var at := FirstIndexOf(s, '@');
    var dot :| at + 1 < dot < |s| - 1 && s[dot] == '.';
    AddressPartOfSlice(s, 0, at, at);
    AddressPartOfSlice(s, at + 1, dot, at);
    AddressPartOfSlice(s, dot + 1, |s|, at);
    assert s[..at] == s[0..at];
    assert s[dot + 1..] == s[dot + 1..|s|];
  }

  lemma PatternIsShaped(s: string)
    requires EmailPattern(s)
    ensures IsEmailShaped(s)
  {
    var at, dot :|
      0 < at && at + 1 < dot < |s| - 1 && s[at] == '@' && s[dot] == '.' &&
      IsAddressPart(s[..at]) && IsAddressPart(s[at + 1..dot]) && IsAddressPart(s[dot + 1..]);
    forall i | 0 <= i < |s| && i != at ensures IsAddressChar(s[i]) {
      if i < at {
        assert s[i] == s[..at][i];
      } else if i < dot {
        assert s[i] == s[at + 1..dot][i - at - 1];
      } else if i > dot {
        assert s[i] == s[dot + 1..][i - dot - 1];
      }
    }
    FirstIndexOfIs(s, '@', at);
  }

  lemma {:induction false} FirstIndexOfIs(s: string, c: char, at: nat)
    requires at < |s| && s[at] == c
    requires forall i :: 0 <= i < at ==> s[i] != c
    ensures FirstIndexOf(s, c) == at
  {
    if at > 0 {
      FirstIndexOfIs(s[1..], c, at - 1);
    }
  }

  lemma AddressPartOfSlice(s: string, lo: int, hi: int, at: int)
    requires 0 <= lo < hi <= |s| && !(lo <= at < hi)
    requires forall i :: 0 <= i < |s| && i != at ==> IsAddressChar(s[i])
    ensures IsAddressPart(s[lo..hi])
  {
    forall i | 0 <= i < hi - lo ensures IsAddressChar(s[lo..hi][i]) {
      assert s[lo..hi][i] == s[lo + i];
    }
  }

  /** A matching address has no surrounding whitespace, so it is never blank. */
  lemma EmailPatternIsNotBlank(s: string)
    ensures EmailPattern(s) ==> Trim(s) != []
  {
    if EmailPattern(s) {
    var at, dot :|
      0 < at && at + 1 < dot < |s| - 1 && s[at] == '@' && s[dot] == '.' &&
      IsAddressPart(s[..at]) && IsAddressPart(s[at + 1..dot]) && IsAddressPart(s[dot + 1..]);
    assert s[0] == s[..at][0];
    assert !IsWhitespace(s[0]);
    TrimEmptyIffWhitespace(s);
    }
  }

  // ---------------------------------------------------------------------------
  // validateForm, one rule per field
  // ---------------------------------------------------------------------------

  /** The username rule: required when blank, otherwise at least 3 characters. */
  function UsernameError(u: string): Option<string> {
    if Trim(u) == [] then Some(UsernameRequired)
    else if |u| < 3 then Some(UsernameTooShort)
    else None
  }

  /** The e-mail rule: required when blank, otherwise it must have the e-mail shape. */
  function EmailError(e: string): Option<string> {
    if Trim(e) == [] then Some(EmailRequired)
    else if !IsEmailShaped(e) then Some(EmailMalformed)
    else None
  }

  /** The password rule: required when empty, otherwise at least 8 characters, untrimmed. */
  function PasswordError(p: string): Option<string> {
    if p == [] then Some(PasswordRequired)
    else if |p| < 8 then Some(PasswordTooShort)
    else None
  }

  /** The confirmation rule: required when empty, otherwise equal to the password. */
  function ConfirmationError(p: string, p2: string): Option<string> {
    if p2 == [] then Some(ConfirmationRequired)
    else if p != p2 then Some(ConfirmationMismatch)
    else None
  }

  /** A username is "required" exactly when blank, and passes exactly when non-blank and 3 long. */
  lemma UsernameRule(u: string)
    ensures UsernameError(u) == Some(UsernameRequired) <==> AllWhitespace(u)
    ensures UsernameError(u).None? <==> !AllWhitespace(u) && |u| >= 3
  {
    TrimEmptyIffWhitespace(u);
  }

  /** An e-mail is "required" exactly when blank, and passes exactly when it matches the pattern. */
  lemma EmailRule(e: string)
    ensures EmailError(e) == Some(EmailRequired) <==> AllWhitespace(e)
    ensures EmailError(e).None? <==> EmailPattern(e)
  {
    TrimEmptyIffWhitespace(e);
    EmailShapeIsPattern(e);
    EmailPatternIsNotBlank(e);
  }

  /** A password is "required" exactly when empty and passes exactly when 8 long. */
  lemma PasswordRule(p: string)
    ensures PasswordError(p) == Some(PasswordRequired) <==> p == []
    ensures PasswordError(p).None? <==> |p| >= 8
  {
  }

  /** A confirmation is "required" exactly when empty and passes exactly when it equals the password. */
  lemma ConfirmationRule(p: string, p2: string)
    ensures ConfirmationError(p, p2) == Some(ConfirmationRequired) <==> p2 == []
    ensures ConfirmationError(p, p2).None? <==> p2 != [] && p2 == p
  {
  }

  /** The four rule outcomes of a form, one per field. */
  datatype Checks = Checks(username: Option<string>, email: Option<string>, password: Option<string>, confirmation: Option<string>)

  function Errors(d: FormData): Checks {
    Checks(UsernameError(d.username), EmailError(d.email), PasswordError(d.password),
           ConfirmationError(d.password, d.password2))
  }

  /** The outcome that belongs to field `f`. */
  function Pick(f: Field, x: Checks): Option<string> {
    match f
    case Username => x.username
    case Email => x.email
    case Password => x.password
    case Password2 => x.confirmation
  }

  /** The single error, if any, that `validateForm` gives field `f`. */
  function FieldError(d: FormData, f: Field): Option<string> {
    match f
    case Username => UsernameError(d.username)
    case Email => EmailError(d.email)
    case Password => PasswordError(d.password)
    case Password2 => ConfirmationError(d.password, d.password2)
  }

  /** `m` records exactly the failing outcomes of `x`: one entry per failing field and nothing else. */
  predicate IsErrorMapFor(x: Checks, m: map<ErrorKey, string>) {
    (forall k :: k in m ==> k.FieldKey?) &&
    (forall f :: FieldKey(f) in m <==> Pick(f, x).Some?) &&
    (forall f :: FieldKey(f) in m ==> m[FieldKey(f)] == Pick(f, x).value)
  }

  /** `m` is the map `validateForm` builds for `d`: one entry per failing field and nothing else. */
  predicate IsErrorMapOf(d: FormData, m: map<ErrorKey, string>) {
    (forall k :: k in m ==> k.FieldKey?) &&
    (forall f :: FieldKey(f) in m <==> FieldError(d, f).Some?) &&
    (forall f :: FieldKey(f) in m ==> m[FieldKey(f)] == FieldError(d, f).value)
  }

  /** `errors` with field `f`'s error `e` recorded, if there is one. */
  function Record(errors: map<ErrorKey, string>, f: Field, e: Option<string>): map<ErrorKey, string> {
    if e.Some? then errors[FieldKey(f) := e.value] else errors
  }

  /** The outcomes recorded field by field, in the order `validateForm` checks them. */
  function RecordAll(x: Checks): map<ErrorKey, string> {
    Record(Record(Record(Record(map[], Username, x.username), Email, x.email), Password, x.password),
           Password2, x.confirmation)
  }

  /** Recording the outcomes one by one gives their error map. */
  lemma RecordAllIsErrorMap(x: Checks)
    ensures IsErrorMapFor(x, RecordAll(x))
  {
    var m := RecordAll(x);
    forall f ensures (FieldKey(f) in m <==> Pick(f, x).Some?) &&
                     (FieldKey(f) in m ==> m[FieldKey(f)] == Pick(f, x).value) {
    }
  }

  /** A map that records the form's four outcomes is its error map. */
  lemma ErrorMapOfChecks(d: FormData, m: map<ErrorKey, string>)
    requires IsErrorMapFor(Errors(d), m)
    ensures IsErrorMapOf(d, m)
  {
    forall f ensures FieldError(d, f) == Pick(f, Errors(d)) {
    }
  }

  /** The form passes every rule. */
  ghost predicate FormValid(d: FormData) {
    !AllWhitespace(d.username) && |d.username| >= 3 &&
    EmailPattern(d.email) &&
    |d.password| >= 8 &&
    d.password2 == d.password
  }

  /** The error map is empty exactly when the form passes every rule. */
  lemma NoErrorsIffValid(d: FormData, m: map<ErrorKey, string>)
    requires IsErrorMapOf(d, m)
    ensures m == map[] <==> FormValid(d)
  {
    UsernameRule(d.username);
    EmailRule(d.email);
    PasswordRule(d.password);
    ConfirmationRule(d.password, d.password2);
    if m == map[] {
      assert FieldError(d, Username).None? && FieldError(d, Email).None?;
      assert FieldError(d, Password).None? && FieldError(d, Password2).None?;
    } else {
      var k :| k in m;
      var f :| k == FieldKey(f);
      assert FieldError(d, f).Some?;
    }
  }

  /** A form the page accepts is also accepted by the backend's password check. */
  lemma ValidFormPassesBackend(d: FormData)
    requires FormValid(d)
    ensures Serializers.ValidateRegistration(
      Serializers.RegisterAttrs(d.username, d.email, d.password, d.password2)).Valid?
  {
  }

  // ---------------------------------------------------------------------------
  // The component
  // ---------------------------------------------------------------------------

  /** The `newErrors` object `validateForm` fills, one `if` per field in source order. */
  method NewErrors(d: FormData) returns (newErrors: map<ErrorKey, string>)
    ensures IsErrorMapOf(d, newErrors)
    ensures newErrors == map[] <==> FormValid(d)
  {
    var x := Errors(d);
    newErrors := map[];
    newErrors := Record(newErrors, Username, x.username);
    newErrors := Record(newErrors, Email, x.email);
    newErrors := Record(newErrors, Password, x.password);
    newErrors := Record(newErrors, Password2, x.confirmation);
    RecordAllIsErrorMap(x);
    ErrorMapOfChecks(d, newErrors);
    NoErrorsIffValid(d, newErrors);
  }

  /** What `apiService.register` did: resolved with an optional message, or threw. */
  datatype RegisterOutcome =
    | Registered(message: Option<string>)
    | Threw(errorMessage: Option<string>)  // None: the thrown value is not an `Error`

  class RegisterForm {
    var formData: FormData
    var errors: map<ErrorKey, string>
    var isLoading: bool
    var successMessage: string

    constructor ()
      ensures formData == FormData("", "", "", "")
      ensures errors == map[] && !isLoading && successMessage == ""
    {
      formData := FormData("", "", "", "");
      errors := map[];
      isLoading := false;
      successMessage := "";
    }

    /** `handleChange`: store the value; blank out this field's error if it is shown. */
    method HandleChange(f: Field, value: string)
      modifies this
      ensures formData == With(old(formData), f, value)
      ensures var k := FieldKey(f);
        if k in old(errors) && old(errors)[k] != "" then errors == old(errors)[k := ""]
        else errors == old(errors)
      ensures isLoading == old(isLoading) && successMessage == old(successMessage)
    {
      formData := With(formData, f, value);
      var k := FieldKey(f);
      if k in errors && errors[k] != "" {
        errors := errors[k := ""];
      }
    }

    /** `validateForm`: replace the error map and report whether it is empty. */
    method ValidateForm() returns (ok: bool)
      modifies this`errors
      ensures IsErrorMapOf(formData, errors)
      ensures ok <==> FormValid(formData)
      ensures ok <==> errors == map[]
    {
      var newErrors := NewErrors(formData);
      ok := newErrors == map[];
      errors := newErrors;
    }

    /**
     * `handleSubmit`: validate; only a valid form is sent, and `sent` is what
     * `register` received.
     */
    method HandleSubmit(outcome: RegisterOutcome) returns (sent: Option<FormData>)
      modifies this
      ensures sent.Some? <==> FormValid(old(formData))
      ensures sent.Some? ==> sent.value == old(formData)
      ensures formData == old(formData)
      ensures sent.None? ==>
        IsErrorMapOf(formData, errors) && errors != map[] &&
        isLoading == old(isLoading) && successMessage == old(successMessage)
      ensures sent.Some? ==> !isLoading
      ensures sent.Some? && outcome.Registered? ==>
        errors == map[] &&
        successMessage == (if outcome.message.Some? && outcome.message.value != "" then outcome.message.value
                           else RegisteredDefault)
      ensures sent.Some? && outcome.Threw? ==>
        successMessage == "" &&
        errors == map[SubmitKey := if outcome.errorMessage.Some? then outcome.errorMessage.value
                                   else SubmitFailedDefault]
    {
      var ok := ValidateForm();
      if !ok {
        return None;
      }
      isLoading := true;
      successMessage := "";
      errors := map[];
      sent := Some(formData);
      match outcome {
        case Registered(message) =>
          successMessage := if message.Some? && message.value != "" then message.value else RegisteredDefault;
        case Threw(errorMessage) =>
          errors := map[SubmitKey := if errorMessage.Some? then errorMessage.value else SubmitFailedDefault];
      }
      isLoading := false;
    }
  }
}
