/** The sign-in / sign-up form: local validation, the request it sends and how the reply
    becomes an error message or a login. */
module Auth {
  import opened Text
  import opened Remote

  /** The three inputs of the form, by their `name` attribute. */
  datatype Field = Username | Email | Password

  /** The keys of the `errors` object: one per input, and `submit` for the server's answer. */
  datatype ErrorKey = FieldError(field: Field) | Submit

  type Errors = map<ErrorKey, string>

  datatype Form = Form(username: string, email: string, password: string) {
    function Get(f: Field): string {
      match f
      case Username => username
      case Email => email
      case Password => password
    }

    /** `{...prev, [name]: value}` */
    function With(f: Field, value: string): (r: Form)
      ensures r.Get(f) == value
      ensures forall g :: g != f ==> r.Get(g) == Get(g)
    {
      match f
      case Username => this.(username := value)
      case Email => this.(email := value)
      case Password => this.(password := value)
    }
  }

  const EmptyForm := Form("", "", "")

  const UsernameRequired := "Username is required"
  const EmailRequired := "Email is required"
  const InvalidEmail := "Please enter a valid email"
  const PasswordRequired := "Password is required"
  const PasswordTooShort := "Password must be at least 6 characters long"
  const MinPasswordLength := 6

  const AuthFailed := "Authentication failed"
  const UserExists := "User already exists. Please sign in instead."
  const BadCredentials := "Invalid credentials. Please check your email and password."
  const AuthRetry := "Authentication failed. Please try again."

  const SignUpEndpoint := "/api/auth/signup"
  const SignInEndpoint := "/api/auth/signin"

  // ---------------------------------------------------------------------------
  // The e-mail pattern `\S+@\S+\.\S+`, tested without anchors

  /** `s[lo..hi]` is a non-empty run of non-whitespace characters: a match of `\S+`. */
  ghost predicate SolidRun(s: string, lo: int, hi: int) {
    0 <= lo < hi <= |s| && forall k :: lo <= k < hi ==> !IsWhitespace(s[k])
  }

  /** `s[i..j]` matches the pattern, with its '@' at `at` and its '.' at `dot`. */
  ghost predicate MatchAt(s: string, i: int, at: int, dot: int, j: int) {
    && SolidRun(s, i, at) && SolidRun(s, at + 1, dot) && SolidRun(s, dot + 1, j)
    && s[at] == '@' && s[dot] == '.'
  }

  /** The regular expression finds a match somewhere in `s`. */
  ghost predicate EmailPatternMatches(s: string) {
    exists i, at, dot, j :: MatchAt(s, i, at, dot, j)
  }

  /** `s` has an '@' and a later '.' with a non-whitespace character just before the '@',
      only non-whitespace (at least one character) between them, and a non-whitespace
      character just after the '.'. */
  predicate EmailAnchors(s: string, at: int, dot: int) {
    && 0 < at && at + 1 < dot && dot + 1 < |s|
    && s[at] == '@' && s[dot] == '.'
    && !IsWhitespace(s[at - 1]) && !IsWhitespace(s[dot + 1])
    && forall k | at < k < dot :: !IsWhitespace(s[k])
  }

  /** The test the validation runs for `/\S+@\S+\.\S+/.test(s)`. */
  predicate LooksLikeEmail(s: string) {
    exists at, dot | 0 <= at < |s| && 0 <= dot < |s| :: EmailAnchors(s, at, dot)
  }

  /** Checking the two anchors decides the regular expression: a longer run around them
      can always be shortened to the single characters next to them, and back. */
  lemma EmailPatternIff(s: string)
    ensures LooksLikeEmail(s) <==> EmailPatternMatches(s)
  {
    if LooksLikeEmail(s) {
      var at, dot :| 0 <= at < |s| && 0 <= dot < |s| && EmailAnchors(s, at, dot);
      assert MatchAt(s, at - 1, at, dot, dot + 2);
    }
    if EmailPatternMatches(s) {
      var i, at, dot, j :| MatchAt(s, i, at, dot, j);
      assert EmailAnchors(s, at, dot);
    }
  }

  // ---------------------------------------------------------------------------
  // Validation

  /** What the validation accepts, stated with blankness and the regular expression. */
  ghost predicate FormValid(signUp: bool, f: Form) {
    && (signUp ==> !Blank(f.username))
    && !Blank(f.email) && EmailPatternMatches(f.email)
    && !Blank(f.password)
    && (signUp ==> |f.password| >= MinPasswordLength)
  }

  /** The username check: only when signing up, and only for a blank name. */
  function UsernameError(signUp: bool, username: string): (e: Option<string>)
    ensures e.Some? <==> signUp && Blank(username)
    ensures e.Some? ==> e.value == UsernameRequired
  {
    if signUp && Blank(username) then Some(UsernameRequired) else None
  }

  /** The e-mail check: "required" for a blank address, otherwise "invalid" when the
      pattern finds no match; the two messages exclude each other. */
  function EmailError(email: string): (e: Option<string>)
    ensures e.Some? <==> Blank(email) || !EmailPatternMatches(email)
    ensures e.Some? ==> e.value == if Blank(email) then EmailRequired else InvalidEmail
  {
    EmailPatternIff(email);
    if Blank(email) then Some(EmailRequired)
    else if !LooksLikeEmail(email) then Some(InvalidEmail)
    else None
  }

  /** The password check: a blank password is "required" whatever its length; the length
      rule applies when signing up only. */
  function PasswordError(signUp: bool, password: string): (e: Option<string>)
    ensures e.Some? <==> Blank(password) || (signUp && |password| < MinPasswordLength)
    ensures e.Some? ==> e.value == if Blank(password) then PasswordRequired else PasswordTooShort
  {
    if Blank(password) then Some(PasswordRequired)
    else if signUp && |password| < MinPasswordLength then Some(PasswordTooShort)
    else None
  }

  /** One entry per field check that failed, holding its message. */
  function Collect(u: Option<string>, e: Option<string>, p: Option<string>): (errs: Errors)
    ensures FieldError(Username) in errs <==> u.Some?
    ensures FieldError(Email) in errs <==> e.Some?
    ensures FieldError(Password) in errs <==> p.Some?
    ensures u.Some? ==> errs[FieldError(Username)] == u.value
    ensures e.Some? ==> errs[FieldError(Email)] == e.value
    ensures p.Some? ==> errs[FieldError(Password)] == p.value
    ensures Submit !in errs
    ensures errs == map[] <==> u.None? && e.None? && p.None?
  {
    var withUsername: Errors := if u.Some? then map[FieldError(Username) := u.value] else map[];
    var withEmail := if e.Some? then withUsername[FieldError(Email) := e.value] else withUsername;
    var errs := if p.Some? then withEmail[FieldError(Password) := p.value] else withEmail;
    assert u.Some? ==> FieldError(Username) in errs;
    errs
  }

  /** `validateForm`: the error object it builds for the current mode and inputs; it is
      empty exactly when the form is valid. */
  function ValidateForm(signUp: bool, f: Form): (errs: Errors)
    ensures errs == map[] <==> FormValid(signUp, f)
    ensures Submit !in errs
    ensures FieldError(Username) in errs <==> signUp && Blank(f.username)
    ensures FieldError(Username) in errs ==> errs[FieldError(Username)] == UsernameRequired
    ensures FieldError(Email) in errs <==> Blank(f.email) || !EmailPatternMatches(f.email)
    ensures FieldError(Email) in errs ==>
              errs[FieldError(Email)] == if Blank(f.email) then EmailRequired else InvalidEmail
    ensures FieldError(Password) in errs <==> Blank(f.password) || (signUp && |f.password| < MinPasswordLength)
    ensures FieldError(Password) in errs ==>
              errs[FieldError(Password)] == if Blank(f.password) then PasswordRequired else PasswordTooShort
  {
    Collect(UsernameError(signUp, f.username), EmailError(f.email), PasswordError(signUp, f.password))
  }

  /** Signing up without a username, with a well-formed e-mail and a six-character password,
      is refused locally with the username error alone. */
  lemma SignUpWithoutUsername()
    ensures ValidateForm(true, Form("", "a@b.com", "abcdef")) == map[FieldError(Username) := UsernameRequired]
  {
    var f := Form("", "a@b.com", "abcdef");
    assert MatchAt(f.email, 0, 1, 3, 5);
    NotBlankAt(f.email, 0);
    NotBlankAt(f.password, 0);
    assert EmailError(f.email) == None;
    assert PasswordError(true, f.password) == None;
    assert UsernameError(true, f.username) == Some(UsernameRequired);
    var errs := ValidateForm(true, f);
    assert errs.Keys == {FieldError(Username)};
  }

  // ---------------------------------------------------------------------------
  // Submission

  /** The request `handleSubmit` posts: `username` is part of the payload only when signing up. */
  datatype AuthRequest = AuthRequest(endpoint: string, username: Option<string>, email: string, password: string)

  function RequestFor(signUp: bool, f: Form): (r: AuthRequest)
    ensures r.endpoint == SignUpEndpoint <==> signUp
    ensures r.endpoint == SignInEndpoint <==> !signUp
    ensures r.username.Some? <==> signUp
    ensures r.username.Some? ==> r.username.value == f.username
    ensures r.email == f.email && r.password == f.password
  {
    if signUp then AuthRequest(SignUpEndpoint, Some(f.username), f.email, f.password)
    else AuthRequest(SignInEndpoint, None, f.email, f.password)
  }

  /** What a successful reply carries to `onLogin`. */
  datatype Login = Login(user: User, token: string)

  /** The `submit` error for a reply that is not a success. The status codes are read in
      either mode; the message is never empty, so it is always displayed. */
  function SubmitFailure<T>(o: Outcome<T>): (msg: string)
    requires !o.Ok?
    ensures msg != ""
    ensures o.NotOk? ==> msg == MessageOr(o.message, AuthFailed)
    ensures o.HttpErr? && o.status == 409 ==> msg == UserExists
    ensures o.HttpErr? && o.status == 401 ==> msg == BadCredentials
    ensures o.HttpErr? && o.status != 409 && o.status != 401 ==> msg == MessageOr(o.message, AuthRetry)
    ensures o.NetErr? ==> msg == AuthRetry
  {
    match o
    case NotOk(m) => MessageOr(m, AuthFailed)
    case HttpErr(status, m) =>
      if status == 409 then UserExists
      else if status == 401 then BadCredentials
      else MessageOr(m, AuthRetry)
    case NetErr => AuthRetry
  }

  /** The component's state: `isSignUp`, `formData`, `errors` and `loading`. */
  class AuthForm {
    var signUp: bool
    var form: Form
    var errors: Errors
    var loading: bool

    constructor ()
      ensures !signUp && form == EmptyForm && errors == map[] && !loading
    {
      signUp, form, errors, loading := false, EmptyForm, map[], false;
    }

    /** `handleInputChange`: the edited input takes the new value, and its error, when
        one is displayed, is blanked; nothing else changes. */
    method InputChange(f: Field, value: string)
      modifies this
      ensures form == old(form).With(f, value)
      ensures forall g :: g != f ==> form.Get(g) == old(form).Get(g)
      ensures FieldError(f) in old(errors) && old(errors)[FieldError(f)] != "" ==>
                errors == old(errors)[FieldError(f) := ""]
      ensures !(FieldError(f) in old(errors) && old(errors)[FieldError(f)] != "") ==> errors == old(errors)
      ensures forall k :: k != FieldError(f) ==> (k in errors <==> k in old(errors))
      ensures forall k :: k != FieldError(f) && k in errors ==> errors[k] == old(errors)[k]
      ensures signUp == old(signUp) && loading == old(loading)
    {
      form := form.With(f, value);
      if FieldError(f) in errors && errors[FieldError(f)] != "" {
        errors := errors[FieldError(f) := ""];
      }
    }

    /** The synchronous part of `handleSubmit`: validate, and either show the errors and
        send nothing, or start loading and return the request to send. */
    method BeginSubmit() returns (request: Option<AuthRequest>)
      modifies this
      ensures ValidateForm(old(signUp), old(form)) != map[] ==>
                request.None? && errors == ValidateForm(old(signUp), old(form)) && loading == old(loading)
      ensures ValidateForm(old(signUp), old(form)) == map[] ==>
                request == Some(RequestFor(old(signUp), old(form))) && errors == map[] && loading
      ensures signUp == old(signUp) && form == old(form)
    {
      var validation := ValidateForm(signUp, form);
      errors := validation;
      if validation != map[] {
        return None;
      }
      loading := true;
      errors := map[];
      request := Some(RequestFor(signUp, form));
    }

    /** The rest of `handleSubmit` once the reply `o` arrived: on success hand the user and
        token to `onLogin` (returned here), otherwise set the `submit` error. */
    method CompleteSubmit(o: Outcome<Login>) returns (login: Option<Login>)
      modifies this
      ensures o.Ok? ==> login == Some(o.data) && errors == old(errors)
      ensures !o.Ok? ==> login.None? && errors == map[Submit := SubmitFailure(o)]
      ensures !loading
      ensures signUp == old(signUp) && form == old(form)
    {
      if o.Ok? {
        login := Some(o.data);
      } else {
        login := None;
        errors := map[Submit := SubmitFailure(o)];
      }
      loading := false;
    }

    /** `toggleMode`: switch between signing in and signing up with an empty form. */
    method ToggleMode()
      modifies this
      ensures signUp == !old(signUp) && form == EmptyForm && errors == map[]
      ensures loading == old(loading)
    {
      signUp := !signUp;
      form := EmptyForm;
      errors := map[];
    }
  }

  /** Toggling twice is back to the original mode, with the form reset. */
  method ToggleTwice(a: AuthForm)
    modifies a
    ensures a.signUp == old(a.signUp) && a.form == EmptyForm && a.errors == map[]
    ensures a.loading == old(a.loading)
  {
    a.ToggleMode();
    a.ToggleMode();
  }
}
