/**
 * The record shapes of backend/models/Quiz.js and backend/models/User.js, and the
 * shape of a stored submission (its fields are those the quiz controller writes).
 * The `Valid…` predicates are the schema constraints that a save enforces.
 */
module Models {
  import opened Responses

  /** A document identifier (a store-wide fresh number stands for an ObjectId). */
  type Id = nat

  datatype Role = Faculty | Student
  datatype Branch = CSE | MNC | MAE | ECE
  datatype Status = Draft | Published

  function RoleName(r: Role): string {
    match r
    case Faculty => "faculty"
    case Student => "student"
  }

  /** The role enum of User.js: only "faculty" and "student" are accepted. */
  function ParseRole(s: string): (r: Option<Role>)
    ensures r.Some? <==> s == "faculty" || s == "student"
    ensures r.Some? ==> RoleName(r.value) == s
  {
    if s == "faculty" then Some(Faculty)
    else if s == "student" then Some(Student)
    else None
  }

  function BranchName(b: Branch): string {
    match b
    case CSE => "CSE"
    case MNC => "MNC"
    case MAE => "MAE"
    case ECE => "ECE"
  }

  /** The branch enum shared by User.js and Quiz.js. */
  function ParseBranch(s: string): (r: Option<Branch>)
    ensures r.Some? <==> s == "CSE" || s == "MNC" || s == "MAE" || s == "ECE"
    ensures r.Some? ==> BranchName(r.value) == s
  {
    if s == "CSE" then Some(CSE)
    else if s == "MNC" then Some(MNC)
    else if s == "MAE" then Some(MAE)
    else if s == "ECE" then Some(ECE)
    else None
  }

  lemma ParseBranchName(b: Branch)
    ensures ParseBranch(BranchName(b)) == Some(b)
  {
  }

  /** An embedded question; `correctAnswer` is meant as an index into `options`. */
  datatype Question = Question(questionText: string, options: seq<string>, correctAnswer: int)

  datatype Quiz = Quiz(
    title: string,
    description: string,
    facultyId: Id,
    questions: seq<Question>,
    targetYear: Option<int>,
    targetBranches: seq<Branch>,
    status: Status)

  /** One entry of a submission: the question it answers and the option chosen. */
  datatype Answer = Answer(questionIndex: int, selectedOption: int)

  /** A stored attempt; `score` is frozen at submission time. */
  datatype Submission = Submission(quizId: Id, studentId: Id, answers: seq<Answer>, score: nat)

  datatype User = User(
    id: Id,
    name: string,
    email: string,
    password: string,
    role: Role,
    year: Option<int>,
    branch: Option<Branch>)

  /** A year, when present, lies in 1..4; an absent value is not checked. */
  predicate ValidYear(y: Option<int>) {
    y.Some? ==> 1 <= y.value <= 4
  }

  /**
   * The question sub-schema: the text is required and every option is a required
   * string. The schema sets no bound between correctAnswer and the options.
   */
  predicate ValidQuestion(q: Question) {
    q.questionText != "" && forall o :: o in q.options ==> o != ""
  }

  /** The quiz schema: a required title, the year range and valid questions. */
  predicate ValidQuiz(z: Quiz) {
    z.title != "" && ValidYear(z.targetYear) && forall q :: q in z.questions ==> ValidQuestion(q)
  }

  /** The user schema on the fields a stored user keeps as given. */
  predicate ValidUser(u: User) {
    u.name != "" && u.email != "" && ValidYear(u.year)
  }

  /**
   * Where the schemas draw their lines: a missing text or title, an empty option
   * and a year outside 1..4 are rejected, while an empty options array, a key
   * outside the options and an absent year are accepted.
   */
  lemma SchemaBoundaries()
    ensures !ValidQuestion(Question("", ["a"], 0)) && !ValidQuestion(Question("q", ["a", ""], 0))
    ensures ValidQuestion(Question("q", [], 7))
    ensures !ValidQuiz(Quiz("", "", 0, [], None, [], Draft))
    ensures !ValidQuiz(Quiz("t", "", 0, [], Some(5), [], Draft))
    ensures !ValidQuiz(Quiz("t", "", 0, [Question("", ["a"], 0)], None, [], Draft))
    ensures ValidQuiz(Quiz("t", "", 0, [Question("q", [], 7)], None, [], Draft))
    ensures !ValidUser(User(0, "n", "e", "p", Student, Some(0), None))
    ensures !ValidUser(User(0, "", "e", "p", Student, Some(1), None))
    ensures ValidUser(User(0, "n", "e", "p", Faculty, None, None))
  {
    assert "a" in ["a", ""] && "" in ["a", ""];
    assert Question("", ["a"], 0) in [Question("", ["a"], 0)];
  }

  predicate UniqueEmails(users: seq<User>) {
    forall i, j :: 0 <= i < j < |users| ==> users[i].email != users[j].email
  }

  /** A new quiz document: status defaults to draft, no target cohort. */
  function NewQuiz(title: string, description: string, facultyId: Id, questions: seq<Question>): (z: Quiz)
    ensures z.title == title && z.description == description
    ensures z.status == Draft && z.facultyId == facultyId && z.questions == questions
    ensures z.targetYear == None && z.targetBranches == []
    ensures ValidQuiz(z) <==> title != "" && forall q :: q in questions ==> ValidQuestion(q)
  {
    Quiz(title, description, facultyId, questions, None, [], Draft)
  }

  /** The publish toggle: published becomes draft and anything else becomes published. */
  function Toggle(s: Status): (r: Status)
    ensures r != s
  {
    if s == Published then Draft else Published
  }

  lemma ToggleTwice(s: Status)
    ensures Toggle(Toggle(s)) == s
  {
  }

  /**
   * The pre-save hook of User.js: the password is replaced by its hash only when it
   * was modified; every other field is kept.
   */
  function PreSave(u: User, passwordModified: bool, hash: string -> string): (r: User)
    ensures passwordModified ==> r.password == hash(u.password)
    ensures !passwordModified ==> r == u
    ensures r.(password := u.password) == u
  {
    if passwordModified then u.(password := hash(u.password)) else u
  }
}
