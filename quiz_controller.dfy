/**
 * The handlers of backend/controllers/quizController.js over the in-memory store.
 * Each returns the response body on success or the error status and message;
 * on every error the store is left exactly as it was.
 */
module QuizController {
  import opened Responses
  import opened Models
  import opened Scoring
  import opened Analytics
  import opened StudentViews
  import opened Store

  const QuizNotFound: Error := Error(NotFound, "Quiz not found")
  const NotAuthorized: Error := Error(Forbidden, "Not authorized")

  /** Only the faculty member who owns a quiz may change it. */
  predicate IsOwner(caller: Caller, z: Quiz) {
    caller.role == Faculty && z.facultyId == caller.id
  }

  /** The guard every mutator runs first: 404 for a missing quiz, then 403 for a non-owner. */
  function OwnerGuard(quizzes: map<Id, Quiz>, id: Id, caller: Caller): (r: Option<Error>)
    ensures r == Some(QuizNotFound) <==> id !in quizzes
    ensures r == Some(NotAuthorized) <==> id in quizzes && !IsOwner(caller, quizzes[id])
    ensures r.None? <==> id in quizzes && IsOwner(caller, quizzes[id])
  {
    if id !in quizzes then Some(QuizNotFound)
    else if !IsOwner(caller, quizzes[id]) then Some(NotAuthorized)
    else None
  }

  /** The guard of getSubmissions and quizAnalytics: a missing quiz is also a 403. */
  function ReaderGuard(quizzes: map<Id, Quiz>, id: Id, caller: Caller): (r: Option<Error>)
    ensures r.None? <==> id in quizzes && IsOwner(caller, quizzes[id])
    ensures r.Some? ==> r.value == NotAuthorized
  {
    if id !in quizzes || !IsOwner(caller, quizzes[id]) then Some(NotAuthorized) else None
  }

  /** updateQuiz's falsy-skip update: an empty value keeps the old one. */
  function PatchQuiz(z: Quiz, title: string, description: string): (r: Quiz)
    ensures r.title == (if title != "" then title else z.title)
    ensures r.description == (if description != "" then description else z.description)
    ensures r.(title := z.title, description := z.description) == z
    ensures ValidQuiz(z) ==> ValidQuiz(r)
  {
    z.(title := if title != "" then title else z.title,
       description := if description != "" then description else z.description)
  }

  lemma PatchQuizIdempotent(z: Quiz, title: string, description: string)
    ensures PatchQuiz(PatchQuiz(z, title, description), title, description) == PatchQuiz(z, title, description)
    ensures PatchQuiz(z, "", "") == z
  {
  }

  /**
   * updateQuestion's partial overwrite: a non-empty text and any supplied options
   * array replace the old ones, and a numeric correctAnswer replaces the key.
   */
  function PatchQuestion(q: Question, text: string, options: Option<seq<string>>, correctAnswer: Option<int>): (r: Question)
    ensures r.questionText == (if text != "" then text else q.questionText)
    ensures r.options == (if options.Some? then options.value else q.options)
    ensures r.correctAnswer == (if correctAnswer.Some? then correctAnswer.value else q.correctAnswer)
    ensures ValidQuestion(q) && (options.Some? ==> forall o :: o in options.value ==> o != "") ==> ValidQuestion(r)
  {
    Question(if text != "" then text else q.questionText,
             options.GetOr(q.options),
             correctAnswer.GetOr(q.correctAnswer))
  }

  lemma PatchQuestionIdempotent(q: Question, text: string, options: Option<seq<string>>, correctAnswer: Option<int>)
    ensures PatchQuestion(PatchQuestion(q, text, options, correctAnswer), text, options, correctAnswer)
         == PatchQuestion(q, text, options, correctAnswer)
    ensures PatchQuestion(q, "", None, None) == q
  {
  }

  /** The sequence without its element at position k. */
  function RemoveAt<T>(s: seq<T>, k: nat): (r: seq<T>)
    requires k < |s|
    ensures |r| == |s| - 1
    ensures forall j :: 0 <= j < k ==> r[j] == s[j]
    ensures forall j :: k <= j < |r| ==> r[j] == s[j + 1]
    ensures multiset(r) + multiset{s[k]} == multiset(s)
  {
    assert s == s[..k] + [s[k]] + s[k + 1..];
    s[..k] + s[k + 1..]
  }

  /**
   * Array splice of one element at an integer index: a negative index counts from the
   * end (clamped to 0), and an index at or past the end removes nothing.
   */
  function SpliceOne<T>(s: seq<T>, index: int): (r: seq<T>)
    ensures 0 <= index < |s| ==> r == RemoveAt(s, index)
    ensures index >= |s| ==> r == s
    ensures -|s| <= index < 0 ==> r == RemoveAt(s, |s| + index)
    ensures index < -|s| && s != [] ==> r == RemoveAt(s, 0)
    ensures multiset(r) <= multiset(s)
  {
    var start := if index >= 0 then index else if |s| + index > 0 then |s| + index else 0;
    if start < |s| then RemoveAt(s, start) else s
  }

  /** Deleting the question just appended restores the list. */
  lemma DeleteUndoesAppend<T>(s: seq<T>, x: T)
    ensures SpliceOne(s + [x], |s|) == s
  {
  }

  /** The addresses of all student users: the recipients of a publish notification. */
  function StudentEmails(users: seq<User>): (r: seq<string>)
    ensures forall e :: e in r <==> exists k :: 0 <= k < |users| && users[k].role == Student && users[k].email == e
  {
    if |users| == 0 then []
    else
      var rest := StudentEmails(users[1..]);
      assert forall k :: 1 <= k < |users| ==> users[k] == users[1..][k - 1];
      (if users[0].role == Student then [users[0].email] else []) + rest
  }

  /** The stored submissions of one quiz, in creation order. */
  function SubmissionsFor(subs: seq<Submission>, quizId: Id): (r: seq<Submission>)
    ensures |r| <= |subs|
    ensures forall s :: s in r <==> s in subs && s.quizId == quizId
  {
    if |subs| == 0 then []
    else
      var rest := SubmissionsFor(subs[1..], quizId);
      assert forall s :: s in subs <==> s == subs[0] || s in subs[1..];
      (if subs[0].quizId == quizId then [subs[0]] else []) + rest
  }

  /** Every submission of the quiz is listed as often as it is stored, and no other is. */
  lemma {:induction false} SubmissionsForCounts(subs: seq<Submission>, quizId: Id)
    ensures forall s :: multiset(SubmissionsFor(subs, quizId))[s] == if s.quizId == quizId then multiset(subs)[s] else 0
  {
    if |subs| > 0 {
      assert subs == [subs[0]] + subs[1..];
      SubmissionsForCounts(subs[1..], quizId);
    }
  }

  /** The filter keeps creation order: it distributes over concatenation. */
  lemma {:induction false} SubmissionsForAppend(a: seq<Submission>, b: seq<Submission>, quizId: Id)
    ensures SubmissionsFor(a + b, quizId) == SubmissionsFor(a, quizId) + SubmissionsFor(b, quizId)
  {
    if |a| > 0 {
      var head := if a[0].quizId == quizId then [a[0]] else [];
      assert (a + b)[0] == a[0] && (a + b)[1..] == a[1..] + b;
      assert SubmissionsFor(a + b, quizId) == head + SubmissionsFor(a[1..] + b, quizId);
      assert SubmissionsFor(a, quizId) == head + SubmissionsFor(a[1..], quizId);
      SubmissionsForAppend(a[1..], b, quizId);
      assert head + (SubmissionsFor(a[1..], quizId) + SubmissionsFor(b, quizId))
          == (head + SubmissionsFor(a[1..], quizId)) + SubmissionsFor(b, quizId);
    } else {
      assert a + b == b;
    }
  }

  /** A new submission for the quiz is listed last; one for another quiz changes nothing. */
  lemma SubmissionsForAfterSubmit(subs: seq<Submission>, s: Submission, quizId: Id)
    ensures SubmissionsFor(subs + [s], quizId) ==
      SubmissionsFor(subs, quizId) + (if s.quizId == quizId then [s] else [])
  {
    SubmissionsForAppend(subs, [s], quizId);
  }

  /** createQuiz: a title is required; the quiz is a draft owned by the caller. */
  method CreateQuiz(db: Database, caller: Caller, title: string, description: string, questions: Option<seq<Question>>)
    returns (r: Result<(Id, Quiz)>)
    requires db.Valid()
    modifies db
    ensures db.Valid()
    ensures title == "" ==> r == Err(Error(BadRequest, "Title required"))
    ensures r.Ok? <==> title != "" && ValidQuiz(NewQuiz(title, description, caller.id, questions.GetOr([])))
    ensures title != "" && r.Err? ==> r.error == Error(ServerError, "Quiz creation failed")
    ensures r.Err? ==> db.Snapshot() == old(db.Snapshot())
    ensures r.Ok? ==>
      r.value.0 == old(db.nextId) && r.value.0 !in old(db.quizzes) &&
      db.nextId == old(db.nextId) + 1 &&
      (forall k :: 0 <= k < |db.submissions| ==> db.submissions[k].quizId != r.value.0) &&
      r.value.1 == NewQuiz(title, description, caller.id, questions.GetOr([])) &&
      db.Snapshot() == old(db.Snapshot()).(quizzes := old(db.quizzes)[r.value.0 := r.value.1], nextId := db.nextId)
  {
    if title == "" {
      return Err(Error(BadRequest, "Title required"));
    }
    var quiz := NewQuiz(title, description, caller.id, questions.GetOr([]));
    if !ValidQuiz(quiz) {
      return Err(Error(ServerError, "Quiz creation failed"));
    }
    var id := db.nextId;
    db.quizzes := db.quizzes[id := quiz];
    db.nextId := db.nextId + 1;
    r := Ok((id, quiz));
  }

  /** updateQuiz: owner-only; empty title or description keep the stored value. */
  method UpdateQuiz(db: Database, caller: Caller, id: Id, title: string, description: string) returns (r: Result<Quiz>)
    requires db.Valid()
    modifies db
    ensures db.Valid()
    ensures r.Err? <==> OwnerGuard(old(db.quizzes), id, caller).Some?
    ensures r.Err? ==> r.error == OwnerGuard(old(db.quizzes), id, caller).value && db.Snapshot() == old(db.Snapshot())
    ensures r.Ok? ==>
      r.value == PatchQuiz(old(db.quizzes)[id], title, description) &&
      db.Snapshot() == old(db.Snapshot()).(quizzes := old(db.quizzes)[id := r.value])
  {
    var guard := OwnerGuard(db.quizzes, id, caller);
    if guard.Some? {
      return Err(guard.value);
    }
    var quiz := PatchQuiz(db.quizzes[id], title, description);
    db.quizzes := db.quizzes[id := quiz];
    r := Ok(quiz);
  }

  /** deleteQuiz: owner-only; the quiz's submissions are kept. */
  method DeleteQuiz(db: Database, caller: Caller, id: Id) returns (r: Result<()>)
    requires db.Valid()
    modifies db
    ensures db.Valid()
    ensures r.Err? <==> OwnerGuard(old(db.quizzes), id, caller).Some?
    ensures r.Err? ==> r.error == OwnerGuard(old(db.quizzes), id, caller).value && db.Snapshot() == old(db.Snapshot())
    ensures r.Ok? ==> id !in db.quizzes && db.Snapshot() == old(db.Snapshot()).(quizzes := old(db.quizzes) - {id})
  {
    var guard := OwnerGuard(db.quizzes, id, caller);
    if guard.Some? {
      return Err(guard.value);
    }
    db.quizzes := db.quizzes - {id};
    r := Ok(());
  }

  /**
   * publishQuiz: owner-only toggle between draft and published. Moving into
   * published notifies every student, whatever the quiz's target cohort.
   */
  method PublishQuiz(db: Database, caller: Caller, id: Id) returns (r: Result<Status>)
    requires db.Valid()
    modifies db
    ensures db.Valid()
    ensures r.Err? <==> OwnerGuard(old(db.quizzes), id, caller).Some?
    ensures r.Err? ==> r.error == OwnerGuard(old(db.quizzes), id, caller).value && db.Snapshot() == old(db.Snapshot())
    ensures r.Ok? ==>
      var z := old(db.quizzes)[id];
      r.value != z.status && Toggle(r.value) == z.status &&
      db.Snapshot() == old(db.Snapshot()).(
        quizzes := old(db.quizzes)[id := z.(status := r.value)],
        notifications := old(db.notifications) +
          if r.value == Published then [Notification(id, z.title, StudentEmails(old(db.users)))] else [])
  {
    var guard := OwnerGuard(db.quizzes, id, caller);
    if guard.Some? {
      return Err(guard.value);
    }
    var quiz := db.quizzes[id];
    var previous := quiz.status;
    quiz := quiz.(status := Toggle(previous));
    db.quizzes := db.quizzes[id := quiz];
    if previous != Published && quiz.status == Published {
      db.notifications := db.notifications + [Notification(id, quiz.title, StudentEmails(db.users))];
    }
    ToggleTwice(previous);
    r := Ok(quiz.status);
  }

  /** listQuizzes: faculty see exactly their own quizzes, students exactly the published ones. */
  method ListQuizzes(db: Database, caller: Caller) returns (r: map<Id, Quiz>)
    ensures caller.role == Faculty ==>
      forall id :: id in r <==> id in db.quizzes && db.quizzes[id].facultyId == caller.id
    ensures caller.role == Student ==>
      forall id :: id in r <==> id in db.quizzes && db.quizzes[id].status == Published
    ensures forall id :: id in r ==> id in db.quizzes && r[id] == db.quizzes[id]
  {
    if caller.role == Faculty {
      r := map id | id in db.quizzes && db.quizzes[id].facultyId == caller.id :: db.quizzes[id];
    } else {
      r := map id | id in db.quizzes && db.quizzes[id].status == Published :: db.quizzes[id];
    }
  }

  /**
   * addQuestion: owner-only; text, an options array and a numeric key are required.
   * The key is not checked against the number of options.
   */
  method AddQuestion(db: Database, caller: Caller, id: Id,
                     questionText: string, options: Option<seq<string>>, correctAnswer: Option<int>)
    returns (r: Result<seq<Question>>)
    requires db.Valid()
    modifies db
    ensures db.Valid()
    ensures OwnerGuard(old(db.quizzes), id, caller).Some? ==> r == Err(OwnerGuard(old(db.quizzes), id, caller).value)
    ensures OwnerGuard(old(db.quizzes), id, caller).None? && (questionText == "" || options.None? || correctAnswer.None?) ==>
      r == Err(Error(BadRequest, "Invalid question fields"))
    ensures r.Ok? <==>
      OwnerGuard(old(db.quizzes), id, caller).None? && questionText != "" && options.Some? && correctAnswer.Some? &&
      ValidQuestion(Question(questionText, options.value, correctAnswer.value))
    ensures OwnerGuard(old(db.quizzes), id, caller).None? && questionText != "" && options.Some? && correctAnswer.Some? && r.Err? ==>
      r.error == Error(ServerError, "Add question failed")
    ensures r.Err? ==> db.Snapshot() == old(db.Snapshot())
    ensures r.Ok? ==>
      var z := old(db.quizzes)[id];
      r.value == z.questions + [Question(questionText, options.value, correctAnswer.value)] &&
      db.Snapshot() == old(db.Snapshot()).(quizzes := old(db.quizzes)[id := z.(questions := r.value)])
  {
    var guard := OwnerGuard(db.quizzes, id, caller);
    if guard.Some? {
      return Err(guard.value);
    }
    if questionText == "" || options.None? || correctAnswer.None? {
      return Err(Error(BadRequest, "Invalid question fields"));
    }
    var q := Question(questionText, options.value, correctAnswer.value);
    if !ValidQuestion(q) {
      return Err(Error(ServerError, "Add question failed"));
    }
    var quiz := db.quizzes[id];
    quiz := quiz.(questions := quiz.questions + [q]);
    db.quizzes := db.quizzes[id := quiz];
    r := Ok(quiz.questions);
  }

  /** updateQuestion: owner-only partial overwrite of the question at `index`. */
  method UpdateQuestion(db: Database, caller: Caller, id: Id, index: int,
                        questionText: string, options: Option<seq<string>>, correctAnswer: Option<int>)
    returns (r: Result<seq<Question>>)
    requires db.Valid()
    modifies db
    ensures db.Valid()
    ensures OwnerGuard(old(db.quizzes), id, caller).Some? ==> r == Err(OwnerGuard(old(db.quizzes), id, caller).value)
    ensures OwnerGuard(old(db.quizzes), id, caller).None? && !(0 <= index < |old(db.quizzes)[id].questions|) ==>
      r == Err(Error(NotFound, "Question not found"))
    ensures r.Ok? <==>
      OwnerGuard(old(db.quizzes), id, caller).None? && 0 <= index < |old(db.quizzes)[id].questions| &&
      ValidQuestion(PatchQuestion(old(db.quizzes)[id].questions[index], questionText, options, correctAnswer))
    ensures OwnerGuard(old(db.quizzes), id, caller).None? && 0 <= index < |old(db.quizzes)[id].questions| && r.Err? ==>
      r.error == Error(ServerError, "Update question failed")
    ensures r.Err? ==> db.Snapshot() == old(db.Snapshot())
    ensures r.Ok? ==>
      var z := old(db.quizzes)[id];
      r.value == z.questions[index := PatchQuestion(z.questions[index], questionText, options, correctAnswer)] &&
      db.Snapshot() == old(db.Snapshot()).(quizzes := old(db.quizzes)[id := z.(questions := r.value)])
  {
    var guard := OwnerGuard(db.quizzes, id, caller);
    if guard.Some? {
      return Err(guard.value);
    }
    var quiz := db.quizzes[id];
    if !(0 <= index < |quiz.questions|) {
      return Err(Error(NotFound, "Question not found"));
    }
    var q := PatchQuestion(quiz.questions[index], questionText, options, correctAnswer);
    if !ValidQuestion(q) {
      return Err(Error(ServerError, "Update question failed"));
    }
    quiz := quiz.(questions := quiz.questions[index := q]);
    db.quizzes := db.quizzes[id := quiz];
    r := Ok(quiz.questions);
  }

  /** deleteQuestion: owner-only removal by splice; an index past the end changes nothing. */
  method DeleteQuestion(db: Database, caller: Caller, id: Id, index: int) returns (r: Result<seq<Question>>)
    requires db.Valid()
    modifies db
    ensures db.Valid()
    ensures r.Err? <==> OwnerGuard(old(db.quizzes), id, caller).Some?
    ensures r.Err? ==> r.error == OwnerGuard(old(db.quizzes), id, caller).value && db.Snapshot() == old(db.Snapshot())
    ensures r.Ok? ==>
      var z := old(db.quizzes)[id];
      r.value == SpliceOne(z.questions, index) &&
      db.Snapshot() == old(db.Snapshot()).(quizzes := old(db.quizzes)[id := z.(questions := r.value)])
  {
    var guard := OwnerGuard(db.quizzes, id, caller);
    if guard.Some? {
      return Err(guard.value);
    }
    var quiz := db.quizzes[id];
    var remaining := SpliceOne(quiz.questions, index);
    assert forall q :: q in remaining ==> q in multiset(remaining);
    quiz := quiz.(questions := remaining);
    db.quizzes := db.quizzes[id := quiz];
    r := Ok(remaining);
  }

  /** The quiz as served for taking. */
  datatype QuizView = QuizView(quizId: Id, title: string, description: string, questions: seq<PublicQuestion>)

  /** takeQuiz: only a published quiz is served, and never with its answer key. */
  method TakeQuiz(db: Database, id: Id) returns (r: Result<QuizView>)
    ensures r.Err? <==> id !in db.quizzes || db.quizzes[id].status != Published
    ensures r.Err? ==> r.error == Error(NotFound, "Quiz not found or not published")
    ensures r.Ok? ==>
      var z := db.quizzes[id];
      r.value.quizId == id && r.value.title == z.title && r.value.description == z.description &&
      r.value.questions == StripAnswers(z.questions)
  {
    if id !in db.quizzes || db.quizzes[id].status != Published {
      return Err(Error(NotFound, "Quiz not found or not published"));
    }
    var quiz := db.quizzes[id];
    r := Ok(QuizView(id, quiz.title, quiz.description, StripAnswers(quiz.questions)));
  }

  /** submitQuiz: a published quiz is scored and one submission is appended. */
  method SubmitQuiz(db: Database, caller: Caller, id: Id, answers: seq<Answer>) returns (r: Result<nat>)
    requires db.Valid()
    modifies db
    ensures db.Valid()
    ensures r.Err? <==> id !in old(db.quizzes) || old(db.quizzes)[id].status != Published
    ensures r.Err? ==> r.error == Error(NotFound, "Quiz not found/published") && db.Snapshot() == old(db.Snapshot())
    ensures r.Ok? ==>
      r.value == Score(old(db.quizzes)[id].questions, answers) &&
      r.value <= |old(db.quizzes)[id].questions| &&
      db.Snapshot() == old(db.Snapshot()).(submissions := old(db.submissions) + [Submission(id, caller.id, answers, r.value)])
  {
    if id !in db.quizzes || db.quizzes[id].status != Published {
      return Err(Error(NotFound, "Quiz not found/published"));
    }
    var score := ComputeScore(db.quizzes[id].questions, answers);
    db.submissions := db.submissions + [Submission(id, caller.id, answers, score)];
    r := Ok(score);
  }

  /** getSubmissions: the owner reads every submission of the quiz. */
  method GetSubmissions(db: Database, caller: Caller, id: Id) returns (r: Result<seq<Submission>>)
    ensures r.Err? <==> ReaderGuard(db.quizzes, id, caller).Some?
    ensures r.Err? ==> r.error == NotAuthorized
    ensures r.Ok? ==> forall s :: s in r.value <==> s in db.submissions && s.quizId == id
    ensures r.Ok? ==> r.value == SubmissionsFor(db.submissions, id)
  {
    if ReaderGuard(db.quizzes, id, caller).Some? {
      return Err(NotAuthorized);
    }
    r := Ok(SubmissionsFor(db.submissions, id));
  }

  /** quizAnalytics: owner-only statistics over the quiz's submissions. */
  method QuizAnalytics(db: Database, caller: Caller, id: Id) returns (r: Result<Report>)
    ensures r.Err? <==> ReaderGuard(db.quizzes, id, caller).Some?
    ensures r.Err? ==> r.error == NotAuthorized
    ensures r.Ok? ==>
      var subs := SubmissionsFor(db.submissions, id);
      r.value == Analyze(db.quizzes[id].questions, subs) &&
      (r.value.NoSubmissions? <==> forall s :: s in db.submissions ==> s.quizId != id)
  {
    if ReaderGuard(db.quizzes, id, caller).Some? {
      return Err(NotAuthorized);
    }
    var subs := SubmissionsFor(db.submissions, id);
    r := Ok(Analyze(db.quizzes[id].questions, subs));
    if |subs| > 0 {
      assert subs[0] in subs;
    }
  }

  /** The body of getMyResult: a null score, or the latest attempt in detail. */
  datatype MyResult =
    | NoSubmission
    | Detail(score: nat, totalQuestions: nat, questions: seq<QuestionResult>, quizTitle: string)

  /** getMyResult: the caller's latest attempt at a published quiz, question by question. */
  method GetMyResult(db: Database, caller: Caller, id: Id) returns (r: Result<MyResult>)
    ensures r.Err? <==> id !in db.quizzes || db.quizzes[id].status != Published
    ensures r.Err? ==> r.error == QuizNotFound
    ensures r.Ok? ==>
      var z := db.quizzes[id];
      var latest := LatestSubmission(db.submissions, id, caller.id);
      (r.value.NoSubmission? <==> forall s :: s in db.submissions ==> !IsAttempt(s, id, caller.id)) &&
      (r.value.Detail? ==>
        latest.Some? &&
        r.value == Detail(latest.value.score, |z.questions|, Detailed(z.questions, latest.value.answers), z.title))
  {
    if id !in db.quizzes || db.quizzes[id].status != Published {
      return Err(QuizNotFound);
    }
    var quiz := db.quizzes[id];
    var latest := LatestSubmission(db.submissions, id, caller.id);
    if latest.None? {
      return Ok(NoSubmission);
    }
    var s := latest.value;
    r := Ok(Detail(s.score, |quiz.questions|, Detailed(quiz.questions, s.answers), quiz.title));
  }
}
