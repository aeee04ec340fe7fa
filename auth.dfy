/**
 * The sign-in page: the login and sign-up form rules, the tab switch after
 * a sign-up, and the redirect of a signed-in user.
 */
module Auth {
  import opened Types

  /** The form fields a validation issue can be attached to. */
  datatype Field = Email | Password | DisplayName | PasswordConfirm

  /** The four messages the schemas can report. */
  datatype Message = InvalidEmail | ShortPassword | ShortDisplayName | PasswordsDiffer

  /** A validation issue: the field it is shown under and its message. */
  datatype Issue = Issue(path: Field, message: Message)

  datatype LoginForm = LoginForm(email: string, password: string)

  datatype SignupForm = SignupForm(email: string, password: string, displayName: string, passwordConfirm: string)

  /** The page's two tabs, `"login"` and `"signup"`. */
  datatype Tab = LoginTab | SignupTab

  /** The text shown for each message. */
  function Text(m: Message): string
  {
    match m
    case InvalidEmail => "Please enter a valid email address"
    case ShortPassword => "Password must be at least 6 characters"
    case ShortDisplayName => "Display name must be at least 2 characters"
    case PasswordsDiffer => "Passwords do not match"
  }

  /**
   * A string's JavaScript `length`, which the schema's `min` checks: UTF-16
   * code units, two for a character outside the Basic Multilingual Plane.
   */
  function JsLength(s: string): (n: nat)
    ensures |s| <= n <= 2 * |s|
  {
    if s == [] then 0 else (if s[0] as int >= 0x1_0000 then 2 else 1) + JsLength(s[1..])
  }

  /** Within the Basic Multilingual Plane the JavaScript length is the character count. */
  lemma {:induction false} JsLengthOfBmp(s: string)
    requires forall k :: 0 <= k < |s| ==> s[k] as int < 0x1_0000
    ensures JsLength(s) == |s|
  {
    if s != [] {
      JsLengthOfBmp(s[1..]);
    }
  }

  /** Three emoji make a six-unit password, which the login rules accept. */
  lemma AstralPasswordAccepted(email: string, isEmail: string -> bool)
    requires isEmail(email)
    ensures LoginIssues(LoginForm(email, "\U{1F600}\U{1F600}\U{1F600}"), isEmail) == []
  {
    var p := "\U{1F600}\U{1F600}\U{1F600}";
    assert p[1..][1..][1..] == [];
    assert JsLength(p) == 6;
  }

  /** The shortest accepted password and confirmation, and display name. */
  const MinPassword := 6
  const MinDisplayName := 2

  /**
   * `loginSchema`: the issues of a login form, field by field in schema
   * order. `isEmail` is the schema library's e-mail check.
   */
  function LoginIssues(f: LoginForm, isEmail: string -> bool): (issues: seq<Issue>)
    ensures issues == [] <==> isEmail(f.email) && JsLength(f.password) >= MinPassword
    ensures Issue(Email, InvalidEmail) in issues <==> !isEmail(f.email)
    ensures Issue(Password, ShortPassword) in issues <==> JsLength(f.password) < MinPassword
    ensures forall k :: 0 <= k < |issues| ==> issues[k].path in {Email, Password}
  {
    (if isEmail(f.email) then [] else [Issue(Email, InvalidEmail)])
    + (if JsLength(f.password) >= MinPassword then [] else [Issue(Password, ShortPassword)])
  }

  /** The login part of a sign-up form. */
  function LoginPart(f: SignupForm): LoginForm
  {
    LoginForm(f.email, f.password)
  }

  /**
   * `signupSchema`: the login rules, then the display name and the
   * confirmation, then the password-match refinement. The refinement runs
   * even when a field rule has failed, so a mismatch is always reported,
   * last and under the confirmation field.
   */
  function SignupIssues(f: SignupForm, isEmail: string -> bool): (issues: seq<Issue>)
    ensures issues == [] <==>
              && isEmail(f.email) && JsLength(f.password) >= MinPassword
              && JsLength(f.displayName) >= MinDisplayName && JsLength(f.passwordConfirm) >= MinPassword
              && f.password == f.passwordConfirm
    ensures Issue(DisplayName, ShortDisplayName) in issues <==> JsLength(f.displayName) < MinDisplayName
    ensures Issue(PasswordConfirm, ShortPassword) in issues <==> JsLength(f.passwordConfirm) < MinPassword
    ensures Issue(PasswordConfirm, PasswordsDiffer) in issues <==> f.password != f.passwordConfirm
    ensures f.password != f.passwordConfirm ==> issues[|issues| - 1] == Issue(PasswordConfirm, PasswordsDiffer)
    ensures var login := LoginIssues(LoginPart(f), isEmail); |login| <= |issues| && issues[..|login|] == login
  {
    var login := LoginIssues(LoginPart(f), isEmail);
    var rest := SignupOnlyIssues(f);
    assert (login + rest)[..|login|] == login;
    // the login rules only report e-mail and password issues
    assert Issue(DisplayName, ShortDisplayName) !in login;
    assert Issue(PasswordConfirm, ShortPassword) !in login;
    assert Issue(PasswordConfirm, PasswordsDiffer) !in login;
    login + rest
  }

  /** The issues the sign-up schema adds after the login rules. */
  function SignupOnlyIssues(f: SignupForm): (rest: seq<Issue>)
    ensures rest == [] <==>
              JsLength(f.displayName) >= MinDisplayName && JsLength(f.passwordConfirm) >= MinPassword
              && f.password == f.passwordConfirm
    ensures Issue(DisplayName, ShortDisplayName) in rest <==> JsLength(f.displayName) < MinDisplayName
    ensures Issue(PasswordConfirm, ShortPassword) in rest <==> JsLength(f.passwordConfirm) < MinPassword
    ensures Issue(PasswordConfirm, PasswordsDiffer) in rest <==> f.password != f.passwordConfirm
    ensures f.password != f.passwordConfirm ==> rest[|rest| - 1] == Issue(PasswordConfirm, PasswordsDiffer)
  {
    (if JsLength(f.displayName) >= MinDisplayName then [] else [Issue(DisplayName, ShortDisplayName)])
    + (if JsLength(f.passwordConfirm) >= MinPassword then [] else [Issue(PasswordConfirm, ShortPassword)])
    + (if f.password == f.passwordConfirm then [] else [Issue(PasswordConfirm, PasswordsDiffer)])
  }

  /** Every accepted sign-up form carries an accepted login. */
  lemma SignupImpliesLogin(f: SignupForm, isEmail: string -> bool)
    ensures SignupIssues(f, isEmail) == [] ==> LoginIssues(LoginPart(f), isEmail) == []
  {
  }

  /**
   * A sign-up form whose fields all pass but whose passwords differ is
   * rejected with the mismatch alone.
   */
  lemma {:induction false} MismatchAlone(f: SignupForm, isEmail: string -> bool)
    requires LoginIssues(LoginPart(f), isEmail) == []
    requires JsLength(f.displayName) >= MinDisplayName && JsLength(f.passwordConfirm) >= MinPassword
    requires f.password != f.passwordConfirm
    ensures SignupIssues(f, isEmail) == [Issue(PasswordConfirm, PasswordsDiffer)]
  {
    var issues := SignupIssues(f, isEmail);
    var login := LoginIssues(LoginPart(f), isEmail);
    assert Issue(DisplayName, ShortDisplayName) !in issues;
    assert Issue(PasswordConfirm, ShortPassword) !in issues;
    assert issues[..|login|] == [];
  }

  class AuthPage {
    var activeTab: Tab
    /** The route the router shows. */
    var location: string

    constructor(location: string)
      ensures activeTab == LoginTab && this.location == location
    {
      activeTab := LoginTab;
      this.location := location;
    }

    /** The redirect effect: a signed-in user is sent to `/`. */
    method RedirectIfSignedIn(user: Option<string>)
      modifies this`location
      ensures location == if user.Some? then "/" else old(location)
    {
      if user.Some? {
        location := "/";
      }
    }

    /** A click on a tab trigger. */
    method SelectTab(tab: Tab)
      modifies this`activeTab
      ensures activeTab == tab
    {
      activeTab := tab;
    }

    /**
     * Submitting the login form: with issues, sign-in is not attempted and
     * they are shown; otherwise a sign-in error (`signInError`, the outcome
     * of the call) is reported in a toast. The page state is unchanged.
     */
    method SubmitLogin(form: LoginForm, isEmail: string -> bool, signInError: Option<string>)
      returns (issues: seq<Issue>, notice: Option<Toast>)
      ensures issues == LoginIssues(form, isEmail)
      ensures notice.Some? <==> issues == [] && signInError.Some?
      ensures notice.Some? ==> notice.value == Toast("Login failed", signInError.value)
    {
      issues := LoginIssues(form, isEmail);
      notice := None;
      if issues != [] {
        return;
      }
      if signInError.Some? {
        notice := Some(Toast("Login failed", signInError.value));
      }
    }

    /**
     * Submitting the sign-up form: with issues, sign-up is not attempted;
     * otherwise a sign-up error is reported in a toast, and a success
     * switches to the login tab.
     */
    method SubmitSignup(form: SignupForm, isEmail: string -> bool, signUpError: Option<string>)
      returns (issues: seq<Issue>, notice: Option<Toast>)
      modifies this`activeTab
      ensures issues == SignupIssues(form, isEmail)
      ensures notice.Some? <==> issues == [] && signUpError.Some?
      ensures notice.Some? ==> notice.value == Toast("Signup failed", signUpError.value)
      ensures activeTab == if issues == [] && signUpError.None? then LoginTab else old(activeTab)
    {
      issues := SignupIssues(form, isEmail);
      notice := None;
      if issues != [] {
        return;
      }
      if signUpError.Some? {
        notice := Some(Toast("Signup failed", signUpError.value));
      } else {
        activeTab := LoginTab;
      }
    }
  }
}
