/** Account creation and login (backend/routes/auth.py): the request validators, and the
    signup and login handlers over the `users` table. */
module Auth {
  import opened Wrappers
  import opened Text

  // ---------------------------------------------------------------------------------
  // Validators
  // ---------------------------------------------------------------------------------

  const MobileError := "Invalid mobile number. Must be 10 digits starting with 6-9"
  const UsernameLengthError := "Username must be at least 3 characters"
  const UsernameCharsError := "Username can only contain letters, numbers, and underscores"
  const PasswordError := "Password must be at least 6 characters"

  /** Python `re`'s `$` as written: the end of the input, or a newline that ends it. */
  predicate DollarAsWritten(rest: string) {
    rest == "" || rest == "\n"
  }

  /** The end of the input, which is what the patterns are evidently meant to require. */
  predicate DollarIntended(rest: string) {
    rest == ""
  }

  /** `\d{n}`: consumes exactly `n` digits and returns what follows them. */
  function MatchDigits(s: string, n: nat): (rest: Option<string>)
    ensures rest.Some? <==> n <= |s| && forall i :: 0 <= i < n ==> IsDigit(s[i])
    ensures rest.Some? ==> rest.value == s[n..]
    decreases n
  {
    if n == 0 then Some(s)
    else if s != [] && IsDigit(s[0]) then
      var r := MatchDigits(s[1..], n - 1);
      assert r.Some? ==> s[1..][n - 1..] == s[n..];
      assert forall i :: 0 <= i < |s| - 1 ==> s[1..][i] == s[i + 1];
      r
    else None
  }

  /** `^[6-9]\d{9}$` with `$` as Python reads it. */
  predicate MobilePatternAsWritten(v: string) {
    |v| >= 1 && '6' <= v[0] <= '9'
    && var rest := MatchDigits(v[1..], 9); rest.Some? && DollarAsWritten(rest.value)
  }

  /** `^[6-9]\d{9}$` anchored at the true end of the input. */
  predicate MobilePattern(v: string) {
    |v| >= 1 && '6' <= v[0] <= '9'
    && var rest := MatchDigits(v[1..], 9); rest.Some? && DollarIntended(rest.value)
  }

  /** `validate_mobile` as written. */
  function ValidateMobileAsWritten(v: string): (r: Result<string, string>)
    ensures r.Ok? ==> r.value == v
  {
    if !MobilePatternAsWritten(v) then Err(MobileError) else Ok(v)
  }

  /** A mobile number followed by a newline passes the validator as written. */
  lemma MobileNewlineAccepted()
    ensures ValidateMobileAsWritten("9876543210\n").Ok?
    ensures !MobilePattern("9876543210\n")
  {
    var v := "9876543210\n";
    assert MatchDigits(v[1..], 9) == Some("\n");
  }

  /** `validate_mobile`: accepts exactly ten ASCII digits of which the first is 6 to 9, and
      returns the input unchanged. */
  function ValidateMobile(v: string): (r: Result<string, string>)
    ensures r.Ok? <==> (|v| == 10 && '6' <= v[0] <= '9' && forall i :: 0 <= i < 10 ==> IsDigit(v[i]))
    ensures r.Ok? ==> r.value == v
    ensures r.Err? ==> r.error == MobileError
  {
    assert MobilePattern(v) <==> (|v| == 10 && '6' <= v[0] <= '9' && forall i :: 0 <= i < 10 ==> IsDigit(v[i])) by {
      if |v| >= 1 {
        assert forall i :: 1 <= i < 10 && i < |v| ==> v[1..][i - 1] == v[i];
      }
    }
    if !MobilePattern(v) then Err(MobileError) else Ok(v)
  }

  predicate IsWordChar(c: char) {
    'a' <= c <= 'z' || 'A' <= c <= 'Z' || '0' <= c <= '9' || c == '_'
  }

  /** The length of the longest prefix of word characters (what `[a-zA-Z0-9_]+`
      consumes; none of them is a newline, so the match never backtracks). */
  function WordRun(s: string): (n: nat)
    ensures n <= |s| && forall i :: 0 <= i < n ==> IsWordChar(s[i])
    ensures n < |s| ==> !IsWordChar(s[n])
    decreases |s|
  {
    if s != [] && IsWordChar(s[0]) then 1 + WordRun(s[1..]) else 0
  }

  /** `^[a-zA-Z0-9_]+$` with `$` as Python reads it. */
  predicate UsernamePatternAsWritten(v: string) {
    WordRun(v) >= 1 && DollarAsWritten(v[WordRun(v)..])
  }

  predicate UsernamePattern(v: string) {
    WordRun(v) >= 1 && DollarIntended(v[WordRun(v)..])
  }

  /** `validate_username` as written: the length test first, then the pattern. */
  function ValidateUsernameAsWritten(v: string): (r: Result<string, string>)
    ensures r.Ok? ==> r.value == v && |v| >= 3
  {
    if |v| < 3 then Err(UsernameLengthError)
    else if !UsernamePatternAsWritten(v) then Err(UsernameCharsError)
    else Ok(v)
  }

  /** Two word characters and a newline pass the validator as written, although the
      name has fewer than three characters besides the newline. */
  lemma UsernameNewlineAccepted()
    ensures ValidateUsernameAsWritten("ab\n").Ok?
    ensures !UsernamePattern("ab\n")
  {
    var v := "ab\n";
    assert WordRun(v[2..]) == 0;
    assert WordRun(v[1..]) == 1;
    assert WordRun(v) == 2;
  }

  /** `validate_username`: too short is reported before bad characters; accepted names
      are at least three word characters and come back unchanged. */
  function ValidateUsername(v: string): (r: Result<string, string>)
    ensures r.Ok? <==> (|v| >= 3 && forall i :: 0 <= i < |v| ==> IsWordChar(v[i]))
    ensures r.Ok? ==> r.value == v
    ensures |v| < 3 ==> r == Err(UsernameLengthError)
    ensures |v| >= 3 && r.Err? ==> r.error == UsernameCharsError
  {
    if |v| < 3 then Err(UsernameLengthError)
    else if !UsernamePattern(v) then Err(UsernameCharsError)
    else Ok(v)
  }

  /** `validate_password`: at least six characters, returned unchanged. */
  function ValidatePassword(v: string): (r: Result<string, string>)
    ensures r.Ok? <==> |v| >= 6
    ensures r.Ok? ==> r.value == v
  {
    if |v| < 6 then Err(PasswordError) else Ok(v)
  }

  datatype SignupRequest = SignupRequest(
    name: string,
    mobile: string,
    dob: string,
    gender: string,
    username: string,
    password: string)

  function ErrorOf(r: Result<string, string>): seq<string> {
    if r.Err? then [r.error] else []
  }

  /** The messages request validation reports (answered with status 422), in field order;
      the handler runs only when there are none. */
  function SignupRequestErrors(req: SignupRequest): (errors: seq<string>)
    ensures errors == [] <==> ValidateMobile(req.mobile).Ok? && ValidateUsername(req.username).Ok? && ValidatePassword(req.password).Ok?
    ensures |errors| <= 3
  {
    ErrorOf(ValidateMobile(req.mobile)) + ErrorOf(ValidateUsername(req.username)) + ErrorOf(ValidatePassword(req.password))
  }

  // ---------------------------------------------------------------------------------
  // The users table
  // ---------------------------------------------------------------------------------

  datatype Date = Date(year: int, month: int, day: int)

  datatype User = User(
    id: nat,
    name: string,
    mobile: string,
    dob: Date,
    gender: string,
    username: string,
    passwordHash: string)

  /** The `user` object of a response; signup returns it without an id. */
  datatype UserInfo = UserInfo(id: Option<nat>, username: string, name: string, mobile: string)

  datatype AuthResponse = AuthResponse(success: bool, message: string, user: UserInfo)

  datatype HttpError = HttpError(status: nat, detail: string)

  const UsernameExists := "Username already exists"
  const MobileRegistered := "Mobile number already registered"
  const InvalidCredentials := "Invalid username or password"

  function UsernameOf(u: User): string { u.username }
  function MobileOf(u: User): string { u.mobile }

  /** `SELECT … WHERE <column> = :value` followed by `fetchone()`: the first row whose
      column holds the value, if any. */
  function FindBy(users: seq<User>, column: User -> string, value: string): (r: Option<User>)
    ensures r.Some? ==> r.value in users && column(r.value) == value
    ensures r.None? <==> forall u :: u in users ==> column(u) != value
  {
    if users == [] then None
    else if column(users[0]) == value then Some(users[0])
    else FindBy(users[1..], column, value)
  }

  /** No two users share a username, a mobile number or an id. */
  predicate Distinct(users: seq<User>) {
    forall i, j :: 0 <= i < j < |users| ==>
      users[i].username != users[j].username && users[i].mobile != users[j].mobile && users[i].id != users[j].id
  }

  /** An exception raised inside the signup handler. */
  datatype Raised = ValueError(message: string) | HttpRaised(error: HttpError)

  /** How `str()` renders an HTTP exception: "status: detail". */
  function Render(e: HttpError): string {
    NatToString(e.status) + ": " + e.detail
  }

  /** The two `except` clauses of `signup`: a `ValueError` (the date of birth did not
      parse) becomes 400 with its message; anything else, including the handler's own
      400s, is rolled back and becomes 500. */
  function SignupFailure(e: Raised): (r: HttpError)
    ensures r.status == 400 <==> e.ValueError?
    ensures r.status == 500 <==> e.HttpRaised?
  {
    match e
    case ValueError(m) => HttpError(400, m)
    case HttpRaised(err) => HttpError(500, "Error creating account: " + Render(err))
  }

  /** What `login` answers for the table `users`. */
  function LoginOutcome(users: seq<User>, username: string, password: string, checkPassword: (string, string) -> bool): (r: Result<AuthResponse, HttpError>)
    ensures r.Err? ==> r.error == HttpError(401, InvalidCredentials)
    ensures r.Ok? ==> r.value.user.id.Some? && r.value.user.username == username
  {
    match FindBy(users, UsernameOf, username)
    case None => Err(HttpError(401, InvalidCredentials))
    case Some(u) =>
      if !checkPassword(password, u.passwordHash) then Err(HttpError(401, InvalidCredentials))
      else Ok(AuthResponse(true, "Login successful!", UserInfo(Some(u.id), u.username, u.name, u.mobile)))
  }

  /** With distinct usernames, login succeeds exactly when the named user exists and the
      password checks against that user's hash. */
  lemma LoginSucceedsIff(users: seq<User>, username: string, password: string, checkPassword: (string, string) -> bool)
    requires Distinct(users)
    ensures LoginOutcome(users, username, password, checkPassword).Ok? <==>
      exists u :: u in users && u.username == username && checkPassword(password, u.passwordHash)
  {
    var found := FindBy(users, UsernameOf, username);
    if u :| u in users && u.username == username && checkPassword(password, u.passwordHash) {
      var i :| 0 <= i < |users| && users[i] == u;
      var j :| 0 <= j < |users| && users[j] == found.value;
      assert i == j;
    }
  }

  /** A user just added by signup can log in with the password whose hash was stored. */
  lemma {:induction false} LoginAfterSignup(users: seq<User>, u: User, password: string, checkPassword: (string, string) -> bool)
    requires forall v :: v in users ==> v.username != u.username
    requires checkPassword(password, u.passwordHash)
    ensures LoginOutcome(users + [u], u.username, password, checkPassword)
      == Ok(AuthResponse(true, "Login successful!", UserInfo(Some(u.id), u.username, u.name, u.mobile)))
  {
    var all := users + [u];
    FoundLast(users, u);
  }

  lemma {:induction false} FoundLast(users: seq<User>, u: User)
    requires forall v :: v in users ==> v.username != u.username
    ensures FindBy(users + [u], UsernameOf, u.username) == Some(u)
    decreases |users|
  {
    if users != [] {
      assert (users + [u])[1..] == users[1..] + [u];
      FoundLast(users[1..], u);
    } else {
      assert users + [u] == [u];
    }
  }

  /** The `users` table with the id the database assigns next. */
  class UserTable {
    var users: seq<User>
    var nextId: nat

    ghost predicate Valid()
      reads this
    {
      Distinct(users) && forall u :: u in users ==> u.id < nextId
    }

    constructor ()
      ensures Valid() && users == [] && nextId == 1
    {
      users := [];
      nextId := 1;
    }

    /** `signup`: refuses a taken username, then a taken mobile number, then a date of
        birth that does not parse; otherwise inserts exactly one row and answers with the
        user's name, username and mobile (no id). `passwordHash` is the salted hash of
        the password and `parseDob` the date parser. */
    method Signup(req: SignupRequest, passwordHash: string, parseDob: string -> Result<Date, string>)
      returns (result: Result<AuthResponse, HttpError>)
      requires Valid()
      modifies this
      ensures Valid()
      ensures result.Ok? <==> (FindBy(old(users), UsernameOf, req.username).None?
        && FindBy(old(users), MobileOf, req.mobile).None? && parseDob(req.dob).Ok?)
      ensures result.Ok? ==>
        users == old(users) + [User(old(nextId), req.name, req.mobile, parseDob(req.dob).value, req.gender, req.username, passwordHash)]
        && nextId == old(nextId) + 1
        && result.value == AuthResponse(true, "Account created successfully!", UserInfo(None, req.username, req.name, req.mobile))
      ensures result.Err? ==> users == old(users) && nextId == old(nextId)
      ensures FindBy(old(users), UsernameOf, req.username).Some? ==>
        result == Err(SignupFailure(HttpRaised(HttpError(400, UsernameExists))))
      ensures FindBy(old(users), UsernameOf, req.username).None? && FindBy(old(users), MobileOf, req.mobile).Some? ==>
        result == Err(SignupFailure(HttpRaised(HttpError(400, MobileRegistered))))
      ensures (FindBy(old(users), UsernameOf, req.username).None? && FindBy(old(users), MobileOf, req.mobile).None?
               && parseDob(req.dob).Err?) ==> result == Err(SignupFailure(ValueError(parseDob(req.dob).error)))
    {
      var checkUsername := FindBy(users, UsernameOf, req.username);
      if checkUsername.Some? {
        return Err(SignupFailure(HttpRaised(HttpError(400, UsernameExists))));
      }
      var checkMobile := FindBy(users, MobileOf, req.mobile);
      if checkMobile.Some? {
        return Err(SignupFailure(HttpRaised(HttpError(400, MobileRegistered))));
      }
      var dob := parseDob(req.dob);
      if dob.Err? {
        return Err(SignupFailure(ValueError(dob.error)));
      }
      var user := User(nextId, req.name, req.mobile, dob.value, req.gender, req.username, passwordHash);
      assert forall i :: 0 <= i < |users| ==>
        users[i].username != user.username && users[i].mobile != user.mobile && users[i].id != user.id by {
        forall i | 0 <= i < |users|
          ensures users[i].username != user.username && users[i].mobile != user.mobile && users[i].id != user.id
        {
          assert users[i] in users;
          assert UsernameOf(users[i]) != req.username && MobileOf(users[i]) != req.mobile;
        }
      }
      users := users + [user];
      nextId := nextId + 1;
      return Ok(AuthResponse(true, "Account created successfully!", UserInfo(None, req.username, req.name, req.mobile)));
    }

    /** `login`: the same 401 for an unknown username and for a wrong password; on
        success the user with its id. */
    method Login(username: string, password: string, checkPassword: (string, string) -> bool)
      returns (result: Result<AuthResponse, HttpError>)
      ensures result == LoginOutcome(users, username, password, checkPassword)
    {
      var user := FindBy(users, UsernameOf, username);
      if user.None? {
        return Err(HttpError(401, InvalidCredentials));
      }
      var passwordMatch := checkPassword(password, user.value.passwordHash);
      if !passwordMatch {
        return Err(HttpError(401, InvalidCredentials));
      }
      var u := user.value;
      return Ok(AuthResponse(true, "Login successful!", UserInfo(Some(u.id), u.username, u.name, u.mobile)));
    }
  }
}
