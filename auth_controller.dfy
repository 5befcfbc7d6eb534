/**
 * Sign-up and log-in (backend/controllers/auth.controller.js): the ordered checks that
 * answer 400 or 404 before anything is stored, the e-mail pattern, and the user record
 * sign-up inserts. A request field that is absent, `null` or empty is the empty string
 * here (all three are falsy). Password hashing and comparison are parameters.
 */
module AuthController {
  import opened Wrappers

  /** A stored user; `passwordHash` is what the password field of the document holds. */
  datatype UserRecord = UserRecord(id: string, username: string, email: string, passwordHash: string)

  /** The user object both handlers answer with: id, username and e-mail, and no password. */
  datatype UserView = UserView(id: string, username: string, email: string)

  datatype SignupRequest = SignupRequest(username: string, email: string, password: string)

  datatype LoginRequest = LoginRequest(email: string, password: string)

  datatype AuthResponse =
    | Created(user: UserView)
    | LoggedIn(user: UserView)
    | Rejected(status: int, message: string)

  const MinPasswordLength: int := 6

  // ----- the e-mail pattern ^[a-zA-Z0-9._%+-]+@[a-zA-Z0-9.-]+\.[a-zA-Z]{2,}$ -----

  predicate Alpha(c: char) {
    ('a' <= c <= 'z') || ('A' <= c <= 'Z')
  }

  predicate Digit(c: char) {
    '0' <= c <= '9'
  }

  /** The characters allowed before the "@". */
  predicate LocalChar(c: char) {
    Alpha(c) || Digit(c) || c == '.' || c == '_' || c == '%' || c == '+' || c == '-'
  }

  /** The characters allowed between the "@" and the last ".". */
  predicate DomainChar(c: char) {
    Alpha(c) || Digit(c) || c == '.' || c == '-'
  }

  /** The position of the first `c` in `s`. */
  function FirstIndexOf(s: string, c: char): (r: Option<nat>)
    ensures r.Some? ==> r.value < |s| && s[r.value] == c
    ensures r.Some? ==> forall k :: 0 <= k < r.value ==> s[k] != c
    ensures r.None? ==> forall k :: 0 <= k < |s| ==> s[k] != c
  {
    if s == [] then None
    else if s[0] == c then Some(0)
    else match FirstIndexOf(s[1..], c)
      case None => None
      case Some(k) => Some(k + 1)
  }

  /** The position of the last `c` in `s`. */
  function LastIndexOf(s: string, c: char): (r: Option<nat>)
    ensures r.Some? ==> r.value < |s| && s[r.value] == c
    ensures r.Some? ==> forall k :: r.value < k < |s| ==> s[k] != c
    ensures r.None? ==> forall k :: 0 <= k < |s| ==> s[k] != c
  {
    if s == [] then None
    else if s[|s| - 1] == c then Some(|s| - 1)
    else LastIndexOf(s[..|s| - 1], c)
  }

  /**
   * The pattern with the "@" at `at` and the last "." at `dot`: a non-empty run of
   * local characters, "@", a non-empty run of domain characters, ".", and at least
   * two letters, covering the whole string.
   */
  predicate ShapeAt(s: string, at: nat, dot: nat) {
    && 0 < at && at + 1 < dot && dot + 2 < |s|
    && s[at] == '@' && s[dot] == '.'
    && (forall k :: 0 <= k < at ==> LocalChar(s[k]))
    && (forall k :: at < k < dot ==> DomainChar(s[k]))
    && (forall k :: dot < k < |s| ==> Alpha(s[k]))
  }

  /** The pattern test, decided at its two landmarks: the first "@" and the last ".". */
  predicate IsEmail(s: string) {
    match (FirstIndexOf(s, '@'), LastIndexOf(s, '.'))
    case (Some(at), Some(dot)) => ShapeAt(s, at, dot)
    case _ => false
  }

  /** The pattern itself: some split of the string fits it. */
  ghost predicate EmailShape(s: string) {
    exists at: nat, dot: nat :: ShapeAt(s, at, dot)
  }

  /** A split that fits the pattern is the one the landmarks find. */
  lemma ShapeAtLandmarks(s: string, at: nat, dot: nat)
    requires ShapeAt(s, at, dot)
    ensures FirstIndexOf(s, '@') == Some(at)
    ensures LastIndexOf(s, '.') == Some(dot)
  {
  }

  /** The landmark test accepts exactly the strings the pattern matches. */
  lemma IsEmailMatchesPattern(s: string)
    ensures IsEmail(s) <==> EmailShape(s)
  {
    if IsEmail(s) {
      var at, dot := FirstIndexOf(s, '@').value, LastIndexOf(s, '.').value;
      assert ShapeAt(s, at, dot);
    }
    if EmailShape(s) {
      var at: nat, dot: nat :| ShapeAt(s, at, dot);
      ShapeAtLandmarks(s, at, dot);
    }
  }

  /** Two letters after the last "." are needed, one is not enough. */
  lemma EmailExamples()
    ensures IsEmail("ab@cd.io")
    ensures !IsEmail("ab@cd.i")
  {
    assert ShapeAt("ab@cd.io", 2, 5);
    ShapeAtLandmarks("ab@cd.io", 2, 5);
    assert LastIndexOf("ab@cd.i", '.') == Some(5);
  }

  // ----- sign-up -----

  predicate UsernameTaken(users: seq<UserRecord>, username: string) {
    exists i :: 0 <= i < |users| && users[i].username == username
  }

  predicate EmailTaken(users: seq<UserRecord>, email: string) {
    exists i :: 0 <= i < |users| && users[i].email == email
  }

  /** The sign-up checks in the handler's order; the first failing one answers 400. */
  function SignupCheck(users: seq<UserRecord>, req: SignupRequest): Option<string> {
    if req.username == "" || req.email == "" || req.password == "" then Some("Please provide all fields")
    else if !IsEmail(req.email) then Some("Invalid email address")
    else if |req.password| < MinPasswordLength then Some("Password must be at least 6 characters long")
    else if UsernameTaken(users, req.username) then Some("Username already taken")
    else if EmailTaken(users, req.email) then Some("Email already taken")
    else None
  }

  /** Every failing sign-up check, in the handler's order. */
  function SignupFailures(users: seq<UserRecord>, req: SignupRequest): seq<string> {
    (if req.username == "" || req.email == "" || req.password == "" then ["Please provide all fields"] else [])
    + (if !IsEmail(req.email) then ["Invalid email address"] else [])
    + (if |req.password| < MinPasswordLength then ["Password must be at least 6 characters long"] else [])
    + (if UsernameTaken(users, req.username) then ["Username already taken"] else [])
    + (if EmailTaken(users, req.email) then ["Email already taken"] else [])
  }

  /** A request is refused exactly when some check fails, and with the first failure's message. */
  lemma FirstFailureDecides(users: seq<UserRecord>, req: SignupRequest)
    ensures SignupCheck(users, req).None? <==> SignupFailures(users, req) == []
    ensures SignupCheck(users, req).Some? ==> SignupCheck(users, req).value == SignupFailures(users, req)[0]
  {
  }

  /** `signup` as a function of the stored users; `hash` is the password hash and `newId` the new document's id. */
  function SignupWith(users: seq<UserRecord>, req: SignupRequest, hash: string -> string, newId: string)
    : (r: (AuthResponse, seq<UserRecord>))
    ensures r.0.Rejected? <==> SignupCheck(users, req).Some?
    ensures r.0.Rejected? ==> r.0 == Rejected(400, SignupCheck(users, req).value) && r.1 == users
    ensures r.0.Created? ==>
              && r.0.user == UserView(newId, req.username, req.email)
              && r.1 == users + [UserRecord(newId, req.username, req.email, hash(req.password))]
    ensures r.0.Rejected? || r.0.Created?
  {
    match SignupCheck(users, req)
    case Some(message) => (Rejected(400, message), users)
    case None =>
      (Created(UserView(newId, req.username, req.email)),
       users + [UserRecord(newId, req.username, req.email, hash(req.password))])
  }

  /**
   * `signup` as written against the user schema: the schema requires `name`, which the
   * handler never passes, so `User.create` fails validation and a request that passes
   * every check is answered 500 with nothing stored.
   */
  function SignupAsWritten(users: seq<UserRecord>, req: SignupRequest): (AuthResponse, seq<UserRecord>) {
    match SignupCheck(users, req)
    case Some(message) => (Rejected(400, message), users)
    case None => (Rejected(500, "Internal server error"), users)
  }

  /** As written nobody can sign up: the collection never changes, and a request `SignupWith` accepts gets 500. */
  lemma SignupAsWrittenNeverCreates(users: seq<UserRecord>, req: SignupRequest, hash: string -> string, newId: string)
    ensures SignupAsWritten(users, req).1 == users
    ensures SignupAsWritten(users, req).0.Rejected?
    ensures SignupWith(users, req, hash, newId).0.Created? <==>
              SignupAsWritten(users, req).0 == Rejected(500, "Internal server error")
  {
  }

  /** A well-formed first sign-up: refused with 500 as written, created by `SignupWith`. */
  lemma SignupAsWrittenExample(hash: string -> string)
    ensures SignupAsWritten([], SignupRequest("ab", "ab@cd.io", "secret")).0 == Rejected(500, "Internal server error")
    ensures SignupWith([], SignupRequest("ab", "ab@cd.io", "secret"), hash, "u1").0 == Created(UserView("u1", "ab", "ab@cd.io"))
  {
    var req := SignupRequest("ab", "ab@cd.io", "secret");
    EmailExamples();
    assert SignupCheck([], req) == None;
  }

  /** A password shorter than six characters never signs up. */
  lemma ShortPasswordNeverSignsUp(users: seq<UserRecord>, req: SignupRequest, hash: string -> string, newId: string)
    requires |req.password| < MinPasswordLength
    ensures SignupWith(users, req, hash, newId).0.Rejected?
    ensures SignupWith(users, req, hash, newId).1 == users
  {
  }

  /** No two stored users share a username, and none share an e-mail. */
  predicate UniqueAccounts(users: seq<UserRecord>) {
    forall i, j :: 0 <= i < j < |users| ==>
      users[i].username != users[j].username && users[i].email != users[j].email
  }

  /** Sign-up keeps usernames and e-mails unique, and stores a well-formed e-mail. */
  lemma SignupKeepsAccountsUnique(users: seq<UserRecord>, req: SignupRequest, hash: string -> string, newId: string)
    requires UniqueAccounts(users)
    ensures UniqueAccounts(SignupWith(users, req, hash, newId).1)
    ensures SignupWith(users, req, hash, newId).0.Created? ==> IsEmail(req.email) && |req.password| >= MinPasswordLength
  {
    var r := SignupWith(users, req, hash, newId).1;
    if SignupCheck(users, req).None? {
      forall i, j | 0 <= i < j < |r| ensures r[i].username != r[j].username && r[i].email != r[j].email {
        if j == |users| {
          assert r[i] == users[i];
        }
      }
    }
  }

  /** The users collection. */
  class UserStore {
    var users: seq<UserRecord>

    constructor (initial: seq<UserRecord>)
      ensures users == initial
    {
      users := initial;
    }

    /** `signup`: the checks in order, then one record holding `hash(password)`. */
    method Signup(req: SignupRequest, hash: string -> string, newId: string) returns (r: AuthResponse)
      modifies this
      ensures (r, users) == SignupWith(old(users), req, hash, newId)
    {
      var failure := SignupCheck(users, req);
      if failure.Some? {
        return Rejected(400, failure.value);
      }
      users := users + [UserRecord(newId, req.username, req.email, hash(req.password))];
      r := Created(UserView(newId, req.username, req.email));
    }
  }

  // ----- log-in -----

  /** `User.findOne({email})`: the first stored user with that e-mail. */
  function FindByEmail(users: seq<UserRecord>, email: string): (r: Option<nat>)
    ensures r.Some? ==> r.value < |users| && users[r.value].email == email
    ensures r.None? <==> !EmailTaken(users, email)
  {
    if users == [] then None
    else if users[0].email == email then Some(0)
    else match FindByEmail(users[1..], email)
      case None =>
        assert forall i :: 1 <= i < |users| ==> users[i] == users[1..][i - 1];
        None
      case Some(k) => Some(k + 1)
  }

  const Incorrect: string := "Email or password incorrect"

  /**
   * `login`; `matches(password, hash)` is the password comparison. Missing fields are
   * refused with "Please provide all fields"; every other refusal says only that the
   * e-mail or the password is incorrect.
   */
  function Login(users: seq<UserRecord>, req: LoginRequest, matches: (string, string) -> bool): (r: AuthResponse)
    ensures r.Created? == false
    ensures r == Rejected(400, "Please provide all fields") <==> req.email == "" || req.password == ""
    ensures r.Rejected? && req.email != "" && req.password != "" ==> r.message == Incorrect
    ensures r.Rejected? && r.status == 404 <==>
              req.email != "" && req.password != "" && IsEmail(req.email)
              && |req.password| >= MinPasswordLength && !EmailTaken(users, req.email)
    ensures r.LoggedIn? ==>
              exists i :: 0 <= i < |users| && users[i].email == req.email && matches(req.password, users[i].passwordHash)
                && r.user == UserView(users[i].id, users[i].username, users[i].email)
    ensures req.email != "" && req.password != "" && IsEmail(req.email) && |req.password| >= MinPasswordLength
            && FindByEmail(users, req.email).Some? ==>
              var u := users[FindByEmail(users, req.email).value];
              r == if matches(req.password, u.passwordHash) then LoggedIn(UserView(u.id, u.username, u.email))
                   else Rejected(400, Incorrect)
  {
    if req.email == "" || req.password == "" then Rejected(400, "Please provide all fields")
    else if !IsEmail(req.email) then Rejected(400, Incorrect)
    else if |req.password| < MinPasswordLength then Rejected(400, Incorrect)
    else match FindByEmail(users, req.email)
      case None => Rejected(404, Incorrect)
      case Some(i) =>
        if !matches(req.password, users[i].passwordHash) then Rejected(400, Incorrect)
        else LoggedIn(UserView(users[i].id, users[i].username, users[i].email))
  }

  /** A password shorter than six characters never logs in, whatever is stored. */
  lemma ShortPasswordNeverLogsIn(users: seq<UserRecord>, req: LoginRequest, matches: (string, string) -> bool)
    requires |req.password| < MinPasswordLength
    ensures Login(users, req, matches).Rejected?
    ensures Login(users, req, matches).status == 400
  {
  }

  /** A registered e-mail with a wrong password is a 400, not a 404. */
  lemma WrongPasswordIs400(users: seq<UserRecord>, req: LoginRequest, matches: (string, string) -> bool)
    requires req.email != "" && IsEmail(req.email) && |req.password| >= MinPasswordLength
    requires EmailTaken(users, req.email)
    requires forall i :: 0 <= i < |users| && users[i].email == req.email ==> !matches(req.password, users[i].passwordHash)
    ensures Login(users, req, matches) == Rejected(400, Incorrect)
  {
  }

  /** Signing up and then logging in with the same e-mail and password succeeds when the comparison accepts the hash. */
  lemma SignupThenLogin(users: seq<UserRecord>, req: SignupRequest, hash: string -> string, newId: string,
                        matches: (string, string) -> bool)
    requires UniqueAccounts(users)
    requires SignupCheck(users, req).None?
    requires forall p :: matches(p, hash(p))
    ensures Login(SignupWith(users, req, hash, newId).1, LoginRequest(req.email, req.password), matches)
         == LoggedIn(UserView(newId, req.username, req.email))
  {
    var after := SignupWith(users, req, hash, newId).1;
    assert after[|users|].email == req.email;
    assert FindByEmail(after, req.email) == Some(|users|);
  }
}
