/** The sign-in / sign-up dialog of the web client: its two forms, the client-side
    checks run before a signup request, the login guard, and how a response, a refusal
    or a thrown error changes the dialog.

    Each submit handler is one atomic method: the awaited call's outcome is an input,
    and `loading` is back to false when the handler ends. What a handler hands to its
    parent (`onAuthSuccess` followed by `onClose`) is returned as the authenticated
    user. */
module AuthModal {
  import opened Wrappers
  import opened Text
  import opened Auth

  datatype SignupForm = SignupForm(
    name: string,
    mobile: string,
    dob: string,
    gender: string,
    username: string,
    password: string,
    confirmPassword: string)

  datatype LoginForm = LoginForm(username: string, password: string)

  const EmptySignup := SignupForm("", "", "", "", "", "", "")
  const EmptyLogin := LoginForm("", "")

  const MismatchError := "Passwords do not match"
  const ShortPasswordError := "Password must be at least 6 characters"
  const MobileFormatError := "Invalid mobile number. Must be 10 digits starting with 6-9"
  const MissingCredentials := "Please enter username and password"
  const SignupDefault := "Signup failed. Please try again."
  const LoginDefault := "Login failed. Please check your credentials."

  /** The outcome of an awaited `signup`/`login` call: a response with `success`, a
      response without it, or a thrown error with its message (possibly empty). */
  datatype Outcome = Success(user: UserInfo) | NoSuccess | Thrown(message: string)

  /** A snapshot of the dialog's state. */
  datatype Dialog = Dialog(
    isSignUp: bool,
    loading: bool,
    error: string,
    signup: SignupForm,
    login: LoginForm)

  const Initial := Dialog(false, false, "", EmptySignup, EmptyLogin)

  /** `/^[6-9]\d{9}$/.test(mobile)`: in JavaScript, without the `m` flag, `$` matches
      only at the end of the input and `\d` only ASCII digits. */
  predicate MobileTest(mobile: string) {
    MobilePattern(mobile)
  }

  /** The first client-side check that fails, in the order the handler runs them. */
  function SignupCheck(f: SignupForm): (r: Option<string>)
    ensures r.None? <==> f.password == f.confirmPassword && |f.password| >= 6 && MobileTest(f.mobile)
    ensures f.password != f.confirmPassword ==> r == Some(MismatchError)
    ensures f.password == f.confirmPassword && |f.password| < 6 ==> r == Some(ShortPasswordError)
    ensures f.password == f.confirmPassword && |f.password| >= 6 && !MobileTest(f.mobile) ==> r == Some(MobileFormatError)
  {
    if f.password != f.confirmPassword then Some(MismatchError)
    else if |f.password| < 6 then Some(ShortPasswordError)
    else if !MobileTest(f.mobile) then Some(MobileFormatError)
    else None
  }

  /** The body `signup` posts: the form without `confirmPassword`. */
  function SignupBody(f: SignupForm): SignupRequest {
    SignupRequest(f.name, f.mobile, f.dob, f.gender, f.username, f.password)
  }

  /** The client accepts a mobile number exactly when the server's validator (read with
      `$` at the true end) does; and a form the client lets through passes the server's
      mobile and password validators. */
  lemma ClientChecksAgreeWithServer(f: SignupForm)
    ensures MobileTest(f.mobile) <==> ValidateMobile(f.mobile).Ok?
    ensures SignupCheck(f).None? ==>
      ValidateMobile(SignupBody(f).mobile).Ok? && ValidatePassword(SignupBody(f).password).Ok?
  {
  }

  /** The client does not check the username, so the server can still refuse a form the
      client sends. */
  lemma UsernameUncheckedByClient()
    ensures var f := SignupForm("A", "9876543210", "2000-01-01", "Male", "ab", "secret", "secret");
      SignupCheck(f).None? && SignupRequestErrors(SignupBody(f)) == [UsernameLengthError]
  {
    var f := SignupForm("A", "9876543210", "2000-01-01", "Male", "ab", "secret", "secret");
    assert ValidateMobile(f.mobile).Ok?;
    assert ValidateUsername(f.username).Err?;
  }

  /** The message a thrown error leaves, with the mode's default for an empty one. */
  function ThrownText(message: string, default: string): (r: string)
    ensures default != "" ==> r != ""
    ensures message != "" ==> r == message
  {
    if message != "" then message else default
  }

  /** The dialog after an outcome settles: a success closes the dialog and resets the
      forms, a refusal keeps everything, an error shows its text; loading ends. */
  function Settle(d: Dialog, outcome: Outcome, default: string): Dialog {
    match outcome
    case Success(_) => d.(loading := false, error := "", signup := EmptySignup, login := EmptyLogin)
    case NoSuccess => d.(loading := false, error := "")
    case Thrown(m) => d.(loading := false, error := ThrownText(m, default))
  }

  /** `handleSignUp`: the error is cleared, then the checks run; a failed check stops
      before any request. */
  function SignUp(d: Dialog, outcome: Outcome): Dialog {
    match SignupCheck(d.signup)
    case Some(message) => d.(error := message)
    case None => Settle(d.(error := ""), outcome, SignupDefault)
  }

  predicate LoginReady(f: LoginForm) {
    f.username != "" && f.password != ""
  }

  /** `handleLogin`. */
  function LogIn(d: Dialog, outcome: Outcome): Dialog {
    if !LoginReady(d.login) then d.(error := MissingCredentials)
    else Settle(d.(error := ""), outcome, LoginDefault)
  }

  function Cleared(d: Dialog): Dialog {
    d.(signup := EmptySignup, login := EmptyLogin, error := "")
  }

  function Switched(d: Dialog): Dialog {
    d.(isSignUp := !d.isSignUp, error := "")
  }

  /** A failed client check sets its message and changes nothing else: no request is
      made and `loading` keeps its value. */
  lemma FailedCheckOnlySetsError(d: Dialog, outcome: Outcome)
    requires SignupCheck(d.signup).Some?
    ensures SignUp(d, outcome) == d.(error := SignupCheck(d.signup).value)
    ensures SignUp(d, outcome).error != ""
  {
  }

  /** An empty login field sets the prompt and changes nothing else. */
  lemma EmptyLoginOnlySetsError(d: Dialog, outcome: Outcome)
    requires d.login.username == "" || d.login.password == ""
    ensures LogIn(d, outcome) == d.(error := MissingCredentials)
  {
  }

  /** Once a request goes out, whatever comes back leaves `loading` false; a success
      clears the forms, a refusal leaves no error, a thrown error always leaves a
      non-empty one. */
  lemma SettledOutcomes(d: Dialog, outcome: Outcome)
    requires SignupCheck(d.signup).None?
    ensures !SignUp(d, outcome).loading
    ensures outcome.Success? ==> SignUp(d, outcome) == Cleared(d).(loading := false)
    ensures outcome.NoSuccess? ==> SignUp(d, outcome) == d.(loading := false, error := "")
    ensures outcome.Thrown? ==> SignUp(d, outcome).error != "" && SignUp(d, outcome).signup == d.signup
  {
  }

  /** The same for login. */
  lemma LoginOutcomes(d: Dialog, outcome: Outcome)
    requires LoginReady(d.login)
    ensures !LogIn(d, outcome).loading
    ensures outcome.Success? ==> LogIn(d, outcome) == Cleared(d).(loading := false)
    ensures outcome.NoSuccess? ==> LogIn(d, outcome) == d.(loading := false, error := "")
    ensures outcome.Thrown? ==> LogIn(d, outcome).error == ThrownText(outcome.message, LoginDefault)
  {
  }

  /** Switching twice restores the mode; switching keeps both forms and clears the
      error. */
  lemma SwitchModeInvolution(d: Dialog)
    ensures Switched(Switched(d)) == d.(error := "")
    ensures Switched(d).signup == d.signup && Switched(d).login == d.login
    ensures Switched(d).isSignUp != d.isSignUp
  {
  }

  /** Resetting is idempotent and leaves the forms as the dialog first showed them. */
  lemma ResetFormsIdempotent(d: Dialog)
    ensures Cleared(Cleared(d)) == Cleared(d)
    ensures Cleared(d).signup == Initial.signup && Cleared(d).login == Initial.login
    ensures Cleared(d).error == ""
  {
  }

  class AuthDialog {
    var isSignUp: bool
    var loading: bool
    var error: string
    var signup: SignupForm
    var login: LoginForm

    function State(): Dialog
      reads this
    {
      Dialog(isSignUp, loading, error, signup, login)
    }

    constructor ()
      ensures State() == Initial
    {
      isSignUp := false;
      loading := false;
      error := "";
      signup := EmptySignup;
      login := EmptyLogin;
    }

    /** `handleSignUp`; `request` is the body posted, if any, and `authenticated` the
        user passed to `onAuthSuccess` before the dialog closes. */
    method HandleSignUp(outcome: Outcome) returns (request: Option<SignupRequest>, authenticated: Option<UserInfo>)
      modifies this
      ensures State() == SignUp(old(State()), outcome)
      ensures request.Some? <==> SignupCheck(old(signup)).None?
      ensures request.Some? ==> request.value == SignupBody(old(signup))
      ensures authenticated.Some? <==> request.Some? && outcome.Success?
      ensures authenticated.Some? ==> authenticated.value == outcome.user
    {
      error := "";
      request, authenticated := None, None;
      var check := SignupCheck(signup);
      if check.Some? {
        error := check.value;
        return;
      }
      loading := true;
      request := Some(SignupBody(signup));
      match outcome {
        case Success(user) =>
          authenticated := Some(user);
          ResetForms();
        case NoSuccess =>
        case Thrown(m) =>
          error := ThrownText(m, SignupDefault);
      }
      loading := false;
    }

    /** `handleLogin`. */
    method HandleLogin(outcome: Outcome) returns (request: Option<LoginForm>, authenticated: Option<UserInfo>)
      modifies this
      ensures State() == LogIn(old(State()), outcome)
      ensures request.Some? <==> LoginReady(old(login))
      ensures request.Some? ==> request.value == old(login)
      ensures authenticated.Some? <==> request.Some? && outcome.Success?
      ensures authenticated.Some? ==> authenticated.value == outcome.user
    {
      error := "";
      request, authenticated := None, None;
      if login.username == "" || login.password == "" {
        error := MissingCredentials;
        return;
      }
      loading := true;
      request := Some(login);
      match outcome {
        case Success(user) =>
          authenticated := Some(user);
          ResetForms();
        case NoSuccess =>
        case Thrown(m) =>
          error := ThrownText(m, LoginDefault);
      }
      loading := false;
    }

    method ResetForms()
      modifies this
      ensures State() == Cleared(old(State()))
    {
      signup := EmptySignup;
      login := EmptyLogin;
      error := "";
    }

    method SwitchMode()
      modifies this
      ensures State() == Switched(old(State()))
    {
      isSignUp := !isSignUp;
      error := "";
    }

    /** The close button: the parent's `onClose`, then `resetForms`. */
    method Close()
      modifies this
      ensures State() == Cleared(old(State()))
    {
      ResetForms();
    }

    method EditSignup(form: SignupForm)
      modifies this
      ensures State() == old(State()).(signup := form)
    {
      signup := form;
    }

    method EditLogin(form: LoginForm)
      modifies this
      ensures State() == old(State()).(login := form)
    {
      login := form;
    }
  }
}
