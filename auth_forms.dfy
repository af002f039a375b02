/**
 * The three account forms of the front end: registration, sign-in and
 * password reset. Each keeps its fields in `formData` (a map from field
 * name to text, as the JS object), validates them in a fixed order on submit,
 * and only then calls the auth service, whose answer is an input. What a
 * submit does to the outside world is returned as a list of effects.
 */
module AuthForms {
  import opened Wrappers
  import opened Strings
  import Accounts

  // ---------------------------------------------------------------------------
  // The e-mail pattern `^[^\s@]+@[^\s@]+\.[^\s@]+$`
  // ---------------------------------------------------------------------------

  /** JS `\s`: the ECMAScript white-space and line-terminator characters. */
  predicate IsJsSpace(c: char) {
    c == '\t' || c == '\n' || c == '\U{0B}' || c == '\U{0C}' || c == '\r' || c == ' ' ||
    c == '\U{A0}' || c == '\U{1680}' || ('\U{2000}' <= c <= '\U{200A}') ||
    c == '\U{2028}' || c == '\U{2029}' || c == '\U{202F}' || c == '\U{205F}' || c == '\U{3000}' ||
    c == '\U{FEFF}'
  }

  /** `[^\s@]`. */
  predicate Plain(c: char) {
    !IsJsSpace(c) && c != '@'
  }

  predicate AllPlain(t: string) {
    forall k :: 0 <= k < |t| ==> Plain(t[k])
  }

  /** What the regular expression accepts: three non-empty plain runs around one `@` and one `.`. */
  ghost predicate MatchesEmailPattern(s: string) {
    exists i, j :: 0 < i && i + 1 < j && j + 1 < |s| && s[i] == '@' && s[j] == '.' &&
                   AllPlain(s[..i]) && AllPlain(s[i + 1..j]) && AllPlain(s[j + 1..])
  }

  /**
   * `emailRegex.test(email)`: one `@` after a non-empty local part, no white
   * space, and a `.` in the domain that is neither its first nor its last character.
   */
  function IsValidEmail(s: string): (b: bool)
    ensures b <==> MatchesEmailPattern(s)
  {
    match IndexOf(s, '@')
    case None =>
      NoAtNoMatch(s);
      false
    case Some(i) =>
      var domain := s[i + 1..];
      var b := 0 < i && AllPlain(s[..i]) && AllPlain(domain) && |domain| >= 3 && '.' in domain[1..|domain| - 1];
      EmailShapeMatches(s, i);
      b
  }

  lemma NoAtNoMatch(s: string)
    requires '@' !in s
    ensures !MatchesEmailPattern(s)
  {
    assert forall k :: 0 <= k < |s| ==> s[k] != '@';
  }

  /** With the first `@` at `i`, the shape test agrees with the pattern. */
  lemma EmailShapeMatches(s: string, i: nat)
    requires i < |s| && s[i] == '@' && '@' !in s[..i]
    ensures var domain := s[i + 1..];
            (0 < i && AllPlain(s[..i]) && AllPlain(domain) && |domain| >= 3 && '.' in domain[1..|domain| - 1])
            <==> MatchesEmailPattern(s)
  {
    var domain := s[i + 1..];
    if 0 < i && AllPlain(s[..i]) && AllPlain(domain) && |domain| >= 3 && '.' in domain[1..|domain| - 1] {
      ShapeGivesMatch(s, i);
    }
    if MatchesEmailPattern(s) {
      MatchGivesShape(s, i);
    }
  }

  lemma ShapeGivesMatch(s: string, i: nat)
    requires i < |s| && s[i] == '@'
    requires var domain := s[i + 1..];
             0 < i && AllPlain(s[..i]) && AllPlain(domain) && |domain| >= 3 && '.' in domain[1..|domain| - 1]
    ensures MatchesEmailPattern(s)
  {
    var domain := s[i + 1..];
    var inner := domain[1..|domain| - 1];
    var m :| 0 <= m < |inner| && inner[m] == '.';
    var j := i + 2 + m;
    assert s[j] == inner[m];
    var mid := s[i + 1..j];
    forall k | 0 <= k < |mid| ensures Plain(mid[k]) {
      assert mid[k] == domain[k];
    }
    var tail := s[j + 1..];
    forall k | 0 <= k < |tail| ensures Plain(tail[k]) {
      assert tail[k] == domain[m + 2 + k];
    }
  }

  lemma MatchGivesShape(s: string, i: nat)
    requires i < |s| && s[i] == '@' && '@' !in s[..i]
    requires MatchesEmailPattern(s)
    ensures var domain := s[i + 1..];
            0 < i && AllPlain(s[..i]) && AllPlain(domain) && |domain| >= 3 && '.' in domain[1..|domain| - 1]
  {
    var i', j :| 0 < i' && i' + 1 < j && j + 1 < |s| && s[i'] == '@' && s[j] == '.' &&
                 AllPlain(s[..i']) && AllPlain(s[i' + 1..j]) && AllPlain(s[j + 1..]);
    FirstAt(s, i, i');
    DomainPlain(s, i, j);
    var domain := s[i + 1..];
    assert domain[1..|domain| - 1][j - i - 2] == '.';
  }

  /** An `@` preceded by a run without `@` is the first one. */
  lemma FirstAt(s: string, i: nat, i': nat)
    requires i < |s| && s[i] == '@' && '@' !in s[..i]
    requires i' < |s| && s[i'] == '@' && AllPlain(s[..i'])
    ensures i == i'
  {
    var local := s[..i];
    var local' := s[..i'];
    assert forall k :: 0 <= k < i ==> local[k] == s[k];
    assert forall k :: 0 <= k < i' ==> local'[k] == s[k] && Plain(local'[k]);
  }

  /** The two plain runs around the `.` and the `.` itself make a plain domain. */
  lemma DomainPlain(s: string, i: nat, j: nat)
    requires i + 1 < j < |s| && s[j] == '.'
    requires AllPlain(s[i + 1..j]) && AllPlain(s[j + 1..])
    ensures AllPlain(s[i + 1..])
  {
    var domain := s[i + 1..];
    var mid := s[i + 1..j];
    var tail := s[j + 1..];
    forall k | 0 <= k < |domain| ensures Plain(domain[k]) {
      if i + 1 + k < j {
        assert domain[k] == mid[k];
      } else if i + 1 + k > j {
        assert domain[k] == tail[k - (j - i)];
      }
    }
  }

  // ---------------------------------------------------------------------------
  // Form state shared by the three pages
  // ---------------------------------------------------------------------------

  type Form = map<string, string>

  /** `formData[key]`; a field the form never set reads as the empty (falsy) string. */
  function Field(f: Form, key: string): string {
    if key in f then f[key] else ""
  }

  /** Every listed field is non-empty (JS truthy). */
  predicate AllFilled(f: Form, keys: seq<string>) {
    forall k :: k in keys ==> Field(f, k) != ""
  }

  /** A form whose listed fields all start empty. */
  function EmptyForm(keys: seq<string>): (f: Form)
    ensures forall k :: k in keys ==> k in f && f[k] == ""
    ensures forall k :: k in f ==> k in keys
  {
    map k | k in keys :: ""
  }

  /** `err.message || fallback`. */
  function MessageOr(message: string, fallback: string): (m: string)
    ensures message != "" ==> m == message
    ensures message == "" ==> m == fallback
  {
    if message != "" then message else fallback
  }

  /** What an auth-service call answered: its value, or a rejection with `err.message` (`""` when unset). */
  datatype Outcome<T> = Resolved(value: T) | Rejected(message: string)

  /** What a submit does outside the component, in order. */
  datatype Effect =
    | ServiceCall(payload: Form)                 // the auth-service request
    | SignIn(user: Accounts.PublicUser)          // `login(response.user)` on the auth context
    | Navigate(path: string, delayMs: nat)       // `navigate(path)`, after `delayMs`

  const FillMessage: string := "Please fill in all fields"
  const EmailMessage: string := "Please enter a valid email address"
  const MinPasswordLength: nat := 6

  // ---------------------------------------------------------------------------
  // Registration
  // ---------------------------------------------------------------------------

  const RegisterFields: seq<string> := ["name", "email", "password", "confirmPassword"]
  const MismatchMessage: string := "Passwords do not match"
  const ShortMessage: string := "Password must be at least 6 characters long"

  /** The checks of the registration submit, in order; the first failure's message, `None` when all pass. */
  function RegisterCheck(f: Form): (r: Option<string>)
    ensures r == Some(FillMessage) <==> !AllFilled(f, RegisterFields)
    ensures r == Some(MismatchMessage) <==>
              AllFilled(f, RegisterFields) && Field(f, "password") != Field(f, "confirmPassword")
    ensures r == Some(EmailMessage) <==>
              AllFilled(f, RegisterFields) && Field(f, "password") == Field(f, "confirmPassword") &&
              !MatchesEmailPattern(Field(f, "email"))
    ensures r == Some(ShortMessage) <==>
              AllFilled(f, RegisterFields) && Field(f, "password") == Field(f, "confirmPassword") &&
              MatchesEmailPattern(Field(f, "email")) && |Field(f, "password")| < MinPasswordLength
    ensures r.None? <==>
              AllFilled(f, RegisterFields) && Field(f, "password") == Field(f, "confirmPassword") &&
              MatchesEmailPattern(Field(f, "email")) && |Field(f, "password")| >= MinPasswordLength
  {
    if Field(f, "name") == "" || Field(f, "email") == "" || Field(f, "password") == "" ||
       Field(f, "confirmPassword") == "" then
      Some(FillMessage)
    else if Field(f, "password") != Field(f, "confirmPassword") then Some(MismatchMessage)
    else if !IsValidEmail(Field(f, "email")) then Some(EmailMessage)
    else if |Field(f, "password")| < MinPasswordLength then Some(ShortMessage)
    else None
  }

  /** The registration request: name, email and password as typed; the confirmation is not sent. */
  function RegisterPayload(f: Form): (p: Form)
    ensures p.Keys == {"name", "email", "password"}
    ensures forall k :: k in p ==> p[k] == Field(f, k)
  {
    map["name" := Field(f, "name"), "email" := Field(f, "email"), "password" := Field(f, "password")]
  }

  class RegisterPage {
    var formData: Form
    var error: string
    var loading: bool

    constructor ()
      ensures formData == EmptyForm(RegisterFields) && error == "" && !loading
    {
      formData := EmptyForm(RegisterFields);
      error := "";
      loading := false;
    }

    /** `handleChange`: one field takes the typed value and the error is cleared. */
    method HandleChange(name: string, value: string)
      modifies this
      ensures formData == old(formData)[name := value]
      ensures error == "" && loading == old(loading)
    {
      formData := formData[name := value];
      if error != "" {
        error := "";
      }
    }

    /** `handleSubmit`; `outcome` is what `authService.register` answers when it is called. */
    method HandleSubmit(outcome: Outcome<()>) returns (effects: seq<Effect>)
      modifies this
      ensures formData == old(formData) && !loading
      ensures RegisterCheck(formData).Some? ==> effects == [] && error == RegisterCheck(formData).value
      ensures RegisterCheck(formData).None? && outcome.Resolved? ==>
                effects == [ServiceCall(RegisterPayload(formData)), Navigate("/login", 0)] && error == ""
      ensures RegisterCheck(formData).None? && outcome.Rejected? ==>
                effects == [ServiceCall(RegisterPayload(formData))] &&
                error == MessageOr(outcome.message, "Registration failed. Please try again.")
    {
      loading := true;
      error := "";
      effects := [];
      var check := RegisterCheck(formData);
      if check.Some? {
        error := check.value;
        loading := false;
        return;
      }
      effects := [ServiceCall(RegisterPayload(formData))];
      match outcome {
        case Resolved(_) =>
          effects := effects + [Navigate("/login", 0)];
        case Rejected(message) =>
          error := MessageOr(message, "Registration failed. Please try again.");
      }
      loading := false;
    }
  }

  // ---------------------------------------------------------------------------
  // Sign-in
  // ---------------------------------------------------------------------------

  const LoginFields: seq<string> := ["email", "password"]

  /** The checks of the sign-in submit: both fields filled, then the e-mail pattern; no length check. */
  function LoginCheck(f: Form): (r: Option<string>)
    ensures r == Some(FillMessage) <==> !AllFilled(f, LoginFields)
    ensures r == Some(EmailMessage) <==> AllFilled(f, LoginFields) && !MatchesEmailPattern(Field(f, "email"))
    ensures r.None? <==> AllFilled(f, LoginFields) && MatchesEmailPattern(Field(f, "email"))
  {
    if Field(f, "email") == "" || Field(f, "password") == "" then Some(FillMessage)
    else if !IsValidEmail(Field(f, "email")) then Some(EmailMessage)
    else None
  }

  class LoginPage {
    var formData: Form
    var error: string
    var loading: bool

    constructor ()
      ensures formData == EmptyForm(LoginFields) && error == "" && !loading
    {
      formData := EmptyForm(LoginFields);
      error := "";
      loading := false;
    }

    /** `handleChange`: one field takes the typed value and the error is cleared. */
    method HandleChange(name: string, value: string)
      modifies this
      ensures formData == old(formData)[name := value]
      ensures error == "" && loading == old(loading)
    {
      formData := formData[name := value];
      if error != "" {
        error := "";
      }
    }

    /**
     * `handleSubmit`; `outcome` is what `authService.login` answers: the
     * signed-in user, or a rejection.
     */
    method HandleSubmit(outcome: Outcome<Accounts.PublicUser>) returns (effects: seq<Effect>)
      modifies this
      ensures formData == old(formData) && !loading
      ensures LoginCheck(formData).Some? ==> effects == [] && error == LoginCheck(formData).value
      ensures LoginCheck(formData).None? && outcome.Resolved? ==>
                effects == [ServiceCall(formData), SignIn(outcome.value), Navigate("/", 0)] && error == ""
      ensures LoginCheck(formData).None? && outcome.Rejected? ==>
                effects == [ServiceCall(formData)] && error == MessageOr(outcome.message, "Invalid credentials")
    {
      loading := true;
      error := "";
      effects := [];
      var check := LoginCheck(formData);
      if check.Some? {
        error := check.value;
        loading := false;
        return;
      }
      effects := [ServiceCall(formData)];
      match outcome {
        case Resolved(user) =>
          effects := effects + [SignIn(user), Navigate("/", 0)];
        case Rejected(message) =>
          error := MessageOr(message, "Invalid credentials");
      }
      loading := false;
    }
  }

  // ---------------------------------------------------------------------------
  // Password reset
  // ---------------------------------------------------------------------------

  const ResetFields: seq<string> := ["email", "currentPassword", "newPassword", "confirmPassword"]
  const NewMismatchMessage: string := "New passwords do not match"
  const NewShortMessage: string := "New password must be at least 6 characters long"
  const ResetSuccessMessage: string := "Password updated successfully"

  /** The checks of the reset submit: filled, then matching, then length; the e-mail is not checked. */
  function ResetCheck(f: Form): (r: Option<string>)
    ensures r == Some(FillMessage) <==> !AllFilled(f, ResetFields)
    ensures r == Some(NewMismatchMessage) <==>
              AllFilled(f, ResetFields) && Field(f, "newPassword") != Field(f, "confirmPassword")
    ensures r == Some(NewShortMessage) <==>
              AllFilled(f, ResetFields) && Field(f, "newPassword") == Field(f, "confirmPassword") &&
              |Field(f, "newPassword")| < MinPasswordLength
    ensures r.None? <==>
              AllFilled(f, ResetFields) && Field(f, "newPassword") == Field(f, "confirmPassword") &&
              |Field(f, "newPassword")| >= MinPasswordLength
  {
    if Field(f, "email") == "" || Field(f, "currentPassword") == "" || Field(f, "newPassword") == "" ||
       Field(f, "confirmPassword") == "" then
      Some(FillMessage)
    else if Field(f, "newPassword") != Field(f, "confirmPassword") then Some(NewMismatchMessage)
    else if |Field(f, "newPassword")| < MinPasswordLength then Some(NewShortMessage)
    else None
  }

  /** The reset request: e-mail, current and new password; the confirmation is not sent. */
  function ResetPayload(f: Form): (p: Form)
    ensures p.Keys == {"email", "currentPassword", "newPassword"}
    ensures forall k :: k in p ==> p[k] == Field(f, k)
  {
    map["email" := Field(f, "email"), "currentPassword" := Field(f, "currentPassword"),
        "newPassword" := Field(f, "newPassword")]
  }

  class ResetPasswordPage {
    var formData: Form
    var error: string
    var success: string
    var loading: bool

    constructor ()
      ensures formData == EmptyForm(ResetFields) && error == "" && success == "" && !loading
    {
      formData := EmptyForm(ResetFields);
      error := "";
      success := "";
      loading := false;
    }

    /** `handleChange`: one field takes the typed value; error and success are cleared. */
    method HandleChange(name: string, value: string)
      modifies this
      ensures formData == old(formData)[name := value]
      ensures error == "" && success == "" && loading == old(loading)
    {
      formData := formData[name := value];
      if error != "" {
        error := "";
      }
      if success != "" {
        success := "";
      }
    }

    /** `handleSubmit`; `outcome` is what `authService.resetPassword` answers. */
    method HandleSubmit(outcome: Outcome<()>) returns (effects: seq<Effect>)
      modifies this
      ensures formData == old(formData) && !loading
      ensures ResetCheck(formData).Some? ==>
                effects == [] && error == ResetCheck(formData).value && success == ""
      ensures ResetCheck(formData).None? && outcome.Resolved? ==>
                effects == [ServiceCall(ResetPayload(formData)), Navigate("/login", 2000)] &&
                error == "" && success == ResetSuccessMessage
      ensures ResetCheck(formData).None? && outcome.Rejected? ==>
                effects == [ServiceCall(ResetPayload(formData))] && success == "" &&
                error == MessageOr(outcome.message, "Password reset failed. Please try again.")
    {
      loading := true;
      error := "";
      success := "";
      effects := [];
      var check := ResetCheck(formData);
      if check.Some? {
        error := check.value;
        loading := false;
        return;
      }
      effects := [ServiceCall(ResetPayload(formData))];
      match outcome {
        case Resolved(_) =>
          success := ResetSuccessMessage;
          effects := effects + [Navigate("/login", 2000)];
        case Rejected(message) =>
          error := MessageOr(message, "Password reset failed. Please try again.");
      }
      loading := false;
    }
  }

  // ---------------------------------------------------------------------------
  // Properties across the forms
  // ---------------------------------------------------------------------------

  /** Typing into one field leaves every other field as it was. */
  lemma ChangeTouchesOneField(f: Form, name: string, value: string, other: string)
    requires other != name
    ensures Field(f[name := value], other) == Field(f, other)
    ensures Field(f[name := value], name) == value
  {
  }

  /** Sign-in has no length rule: any non-empty password passes once the e-mail does. */
  lemma LoginAnyPassword(f: Form, p: string)
    requires p != "" && Field(f, "email") != "" && MatchesEmailPattern(Field(f, "email"))
    ensures LoginCheck(f["password" := p]).None?
  {
    assert Field(f["password" := p], "email") == Field(f, "email");
  }

  /** The reset form never looks at the e-mail's shape: any non-empty e-mail gives the same verdict. */
  lemma ResetIgnoresEmailShape(f: Form, e: string)
    requires e != "" && Field(f, "email") != ""
    ensures ResetCheck(f["email" := e]) == ResetCheck(f)
  {
    var g := f["email" := e];
    assert Field(g, "currentPassword") == Field(f, "currentPassword");
    assert Field(g, "newPassword") == Field(f, "newPassword");
    assert Field(g, "confirmPassword") == Field(f, "confirmPassword");
  }

  /** A mismatch is reported before a bad e-mail: the registration order puts the match check first. */
  lemma MismatchBeforeEmail(f: Form)
    requires AllFilled(f, RegisterFields) && Field(f, "password") != Field(f, "confirmPassword")
    requires !MatchesEmailPattern(Field(f, "email"))
    ensures RegisterCheck(f) == Some(MismatchMessage)
  {
  }

  /** The back end's test account address passes the sign-in pattern. */
  lemma TestEmailAccepted()
    ensures MatchesEmailPattern(Accounts.TestEmail)
  {
    var s := Accounts.TestEmail;
    assert s[..4] == "test" && s[5..12] == "example" && s[13..] == "com";
    LowerPlain("test");
    LowerPlain("example");
    LowerPlain("com");
    assert s[4] == '@' && s[12] == '.';
  }

  lemma LowerPlain(t: string)
    requires forall k :: 0 <= k < |t| ==> 'a' <= t[k] <= 'z'
    ensures AllPlain(t)
  {
  }
}
