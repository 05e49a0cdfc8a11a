/**
 * The handlers of backend/controllers/authController.js: signup's guard chain and
 * insert, and the read-only login and verify lookups. Token issuing is outside
 * the model; a successful call returns the user summary the token would carry.
 */
module AuthController {
  import opened Responses
  import opened Models
  import opened Store

  /**
   * The signup body. An empty string stands for a missing or empty string field;
   * `None` for an absent year or branch.
   */
  datatype SignupRequest = SignupRequest(
    name: string,
    email: string,
    password: string,
    role: string,
    year: Option<int>,
    branch: Option<string>)

  /** The user object of every auth response; it has no password field. */
  datatype UserSummary = UserSummary(id: Id, name: string, email: string, role: Role, year: Option<int>, branch: Option<Branch>)

  const MissingFields: Error := Error(BadRequest, "Missing required field(s)")
  const CohortRequired: Error := Error(BadRequest, "Year and Branch are required for students")
  const EmailTaken: Error := Error(BadRequest, "Email already registered")
  const SignupFailed: Error := Error(ServerError, "Signup failed")
  const InvalidCredentials: Error := Error(BadRequest, "Invalid email or password")
  const UserNotFound: Error := Error(NotFound, "User not found")

  function Summary(u: User): (s: UserSummary)
    ensures s.id == u.id && s.name == u.name && s.email == u.email
    ensures s.role == u.role && s.year == u.year && s.branch == u.branch
  {
    UserSummary(u.id, u.name, u.email, u.role, u.year, u.branch)
  }

  /** The summary does not depend on the stored password. */
  lemma SummaryHidesPassword(u: User, p: string)
    ensures Summary(u.(password := p)) == Summary(u)
  {
  }

  /** JavaScript truthiness of the year: absent and 0 are falsy. */
  predicate TruthyYear(y: Option<int>) {
    y.Some? && y.value != 0
  }

  /** JavaScript truthiness of the branch: absent and "" are falsy. */
  predicate TruthyBranch(b: Option<string>) {
    b.Some? && b.value != ""
  }

  /** Index of the first user with this email, or |users|. */
  function EmailIndex(users: seq<User>, email: string): (k: nat)
    ensures k <= |users|
    ensures forall j :: 0 <= j < k ==> users[j].email != email
    ensures k < |users| ==> users[k].email == email
  {
    if |users| == 0 then 0
    else if users[0].email == email then 0
    else 1 + EmailIndex(users[1..], email)
  }

  /** The lookup of a user by email. */
  function FindByEmail(users: seq<User>, email: string): (r: Option<User>)
    ensures r.None? <==> forall k :: 0 <= k < |users| ==> users[k].email != email
    ensures r.Some? ==> r.value.email == email && r.value in users
  {
    var k := EmailIndex(users, email);
    if k < |users| then Some(users[k]) else None
  }

  /** The lookup of a user by id. */
  function FindById(users: seq<User>, id: Id): (r: Option<User>)
    ensures r.None? <==> forall k :: 0 <= k < |users| ==> users[k].id != id
    ensures r.Some? ==> r.value.id == id && r.value in users
  {
    if |users| == 0 then None
    else if users[0].id == id then Some(users[0])
    else
      var r := FindById(users[1..], id);
      assert forall k :: 1 <= k < |users| ==> users[k] == users[1..][k - 1];
      r
  }

  /** The explicit checks of signup, in the order the handler runs them. */
  function SignupGuard(users: seq<User>, req: SignupRequest): (r: Option<Error>)
    ensures r == Some(MissingFields) <==>
      req.name == "" || req.email == "" || req.password == "" || req.role == ""
    ensures r == Some(CohortRequired) <==>
      req.name != "" && req.email != "" && req.password != "" && req.role == "student" &&
      (!TruthyYear(req.year) || !TruthyBranch(req.branch))
    ensures r == Some(EmailTaken) <==>
      req.name != "" && req.email != "" && req.password != "" && req.role != "" &&
      (req.role == "student" ==> TruthyYear(req.year) && TruthyBranch(req.branch)) &&
      exists k :: 0 <= k < |users| && users[k].email == req.email
    ensures r.None? <==>
      req.name != "" && req.email != "" && req.password != "" && req.role != "" &&
      (req.role == "student" ==> TruthyYear(req.year) && TruthyBranch(req.branch)) &&
      forall k :: 0 <= k < |users| ==> users[k].email != req.email
    ensures r.None? ==> FindByEmail(users, req.email).None?
  {
    if req.name == "" || req.email == "" || req.password == "" || req.role == "" then Some(MissingFields)
    else if req.role == "student" && (!TruthyYear(req.year) || !TruthyBranch(req.branch)) then Some(CohortRequired)
    else if FindByEmail(users, req.email).Some? then Some(EmailTaken)
    else None
  }

  /**
   * The document signup saves, or None when the user schema rejects the request:
   * an unknown role, a year outside 1..4, or a branch outside the enum. The
   * pre-save hook hashes the new password.
   */
  function Candidate(req: SignupRequest, id: Id, hash: string -> string): (r: Option<User>)
    ensures r.Some? <==>
      ParseRole(req.role).Some? && ValidYear(req.year) &&
      (req.branch.Some? ==> ParseBranch(req.branch.value).Some?)
    ensures r.Some? ==>
      r.value.id == id && r.value.name == req.name && r.value.email == req.email &&
      r.value.password == hash(req.password) && RoleName(r.value.role) == req.role &&
      r.value.year == req.year &&
      (r.value.branch.Some? <==> req.branch.Some?) &&
      (r.value.branch.Some? ==> BranchName(r.value.branch.value) == req.branch.value)
  {
    var role := ParseRole(req.role);
    var branch := if req.branch.Some? then ParseBranch(req.branch.value) else None;
    if role.None? || !ValidYear(req.year) || (req.branch.Some? && branch.None?) then None
    else Some(PreSave(User(id, req.name, req.email, req.password, role.value, req.year, branch), true, hash))
  }

  /** A student who passes the guard is stored with a year and a branch. */
  lemma StudentHasCohort(users: seq<User>, req: SignupRequest, id: Id, hash: string -> string)
    requires SignupGuard(users, req).None? && Candidate(req, id, hash).Some?
    requires Candidate(req, id, hash).value.role == Student
    ensures Candidate(req, id, hash).value.year.Some? && Candidate(req, id, hash).value.branch.Some?
  {
  }

  /** signup: the guard chain, the schema check, then one new user. */
  method Signup(db: Database, req: SignupRequest) returns (r: Result<UserSummary>)
    requires db.Valid()
    modifies db
    ensures db.Valid()
    ensures SignupGuard(old(db.users), req).Some? ==> r == Err(SignupGuard(old(db.users), req).value)
    ensures r.Ok? <==> SignupGuard(old(db.users), req).None? && Candidate(req, old(db.nextId), db.hash).Some?
    ensures SignupGuard(old(db.users), req).None? && r.Err? ==> r.error == SignupFailed && r.error.status == ServerError
    ensures r.Err? ==> db.Snapshot() == old(db.Snapshot())
    ensures r.Ok? ==>
      var u := Candidate(req, old(db.nextId), db.hash).value;
      r.value == Summary(u) && db.nextId == old(db.nextId) + 1 &&
      db.Snapshot() == old(db.Snapshot()).(users := old(db.users) + [u], nextId := db.nextId)
  {
    var guard := SignupGuard(db.users, req);
    if guard.Some? {
      return Err(guard.value);
    }
    var user := Candidate(req, db.nextId, db.hash);
    if user.None? {
      return Err(SignupFailed);
    }
    var u := user.value;
    db.users := db.users + [u];
    db.nextId := db.nextId + 1;
    r := Ok(Summary(u));
  }

  /**
   * login: the user with this email whose stored hash matches. An unknown email
   * and a wrong password give the same response.
   */
  function Login(users: seq<User>, hash: string -> string, email: string, password: string): (r: Result<UserSummary>)
    ensures r.Err? ==> r.error == InvalidCredentials
    ensures r.Ok? ==>
      exists k :: 0 <= k < |users| && users[k].email == email && users[k].password == hash(password) && r.value == Summary(users[k])
    ensures UniqueEmails(users) ==>
      (r.Ok? <==> exists k :: 0 <= k < |users| && users[k].email == email && users[k].password == hash(password))
  {
    var k := EmailIndex(users, email);
    if k == |users| || users[k].password != hash(password) then Err(InvalidCredentials)
    else Ok(Summary(users[k]))
  }

  /** verify: the summary of the session's user, or 404 when it is gone. */
  function Verify(users: seq<User>, id: Id): (r: Result<UserSummary>)
    ensures r.Err? <==> forall k :: 0 <= k < |users| ==> users[k].id != id
    ensures r.Err? ==> r.error == UserNotFound
    ensures r.Ok? ==> exists k :: 0 <= k < |users| && users[k].id == id && r.value == Summary(users[k])
  {
    var u := FindById(users, id);
    if u.None? then Err(UserNotFound) else Ok(Summary(u.value))
  }

  /** Looking up an email that only the appended user has finds that user. */
  lemma {:induction false} EmailIndexAppend(users: seq<User>, u: User)
    requires forall k :: 0 <= k < |users| ==> users[k].email != u.email
    ensures EmailIndex(users + [u], u.email) == |users|
  {
    var s := users + [u];
    assert s[|users|] == u;
  }

  /** Signing up and then logging in with the same credentials returns the new user. */
  lemma SignupThenLogin(users: seq<User>, hash: string -> string, req: SignupRequest, id: Id)
    requires SignupGuard(users, req).None? && Candidate(req, id, hash).Some?
    ensures Login(users + [Candidate(req, id, hash).value], hash, req.email, req.password)
         == Ok(Summary(Candidate(req, id, hash).value))
  {
    var u := Candidate(req, id, hash).value;
    EmailIndexAppend(users, u);
    assert (users + [u])[|users|] == u;
  }
}
