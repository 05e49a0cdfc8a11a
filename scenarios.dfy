/**
 * Client code that uses the handlers only through their contracts: what a caller
 * of the controllers can conclude about whole request sequences.
 */
module Scenarios {
  import opened Responses
  import opened Models
  import opened Scoring
  import opened StudentViews
  import opened Store
  import opened QuizController
  import opened AuthController

  /**
   * Deleting a quiz keeps its submissions, and a quiz created afterwards gets a new
   * id, so it does not inherit them.
   */
  method DeleteThenCreate(db: Database, faculty: Caller, id: Id)
    requires db.Valid() && faculty.role == Faculty
    requires id in db.quizzes && db.quizzes[id].facultyId == faculty.id
    modifies db
  {
    var deleted := DeleteQuiz(db, faculty, id);
    assert deleted.Ok?;
    var created := CreateQuiz(db, faculty, "Geometry", "", None);
    assert created.Ok?;
    assert created.value.0 != id;
    assert forall k :: 0 <= k < |db.submissions| ==> db.submissions[k].quizId != created.value.0;
    var subs := GetSubmissions(db, faculty, created.value.0);
    assert subs.Ok? && subs.value == SubmissionsFor(db.submissions, created.value.0);
    assert forall s :: s !in subs.value;
  }

  /** Create a quiz, add two questions, reword question 0: the owner's list shows the new text. */
  method AuthoringRoundTrip()
  {
    var db := new Database(s => s);
    var faculty := Caller(7, Faculty);
    var created := CreateQuiz(db, faculty, "Algebra", "", None);
    assert created.Ok?;
    var id := created.value.0;
    var added := AddQuestion(db, faculty, id, "1+1?", Some(["1", "2"]), Some(1));
    assert added.Ok?;
    added := AddQuestion(db, faculty, id, "2+2?", Some(["4", "5"]), Some(0));
    assert added.Ok? && |added.value| == 2;
    var updated := UpdateQuestion(db, faculty, id, 0, "One plus one?", None, None);
    assert updated.Ok?;
    var listed := ListQuizzes(db, faculty);
    assert id in listed && listed[id].questions[0].questionText == "One plus one?";
    assert listed[id].questions[1].questionText == "2+2?";
  }

  /** Another faculty member cannot delete a question of the quiz, and the list stays as it was. */
  method StrangerCannotDelete(db: Database, id: Id)
    requires db.Valid() && id in db.quizzes && db.quizzes[id].facultyId == 7
    modifies db
  {
    var before := db.quizzes[id].questions;
    var stranger := Caller(8, Faculty);
    var denied := DeleteQuestion(db, stranger, id, 0);
    assert denied == Err(NotAuthorized) && db.quizzes[id].questions == before;
  }

  /** A draft cannot be taken; once published it is served without its key. */
  method PublishThenTake()
  {
    var db := new Database(s => s);
    var faculty := Caller(1, Faculty);
    var questions := [Question("q0", ["a", "b"], 1), Question("q1", ["a", "b"], 0)];
    var created := CreateQuiz(db, faculty, "Quiz", "", Some(questions));
    assert created.Ok?;
    var id := created.value.0;
    var early := TakeQuiz(db, id);
    assert early.Err? && early.error.status == NotFound;
    var status := PublishQuiz(db, faculty, id);
    assert status == Ok(Published);
    var view := TakeQuiz(db, id);
    assert view.Ok? && view.value.questions == StripAnswers(questions);
    status := PublishQuiz(db, faculty, id);
    assert status == Ok(Draft);
  }

  /** Example: submitting answers (0,1), (1,1), (2,2) against key [1, 0, 2] scores 2, and the student's result reports it. */
  method SubmitThenReadBack(db: Database, id: Id)
    requires db.Valid() && id in db.quizzes && db.quizzes[id].status == Published
    requires db.quizzes[id].questions ==
      [Question("q0", ["a", "b"], 1), Question("q1", ["a", "b"], 0), Question("q2", ["a", "b", "c"], 2)]
    modifies db
  {
    var student := Caller(2, Student);
    var answers := [Answer(0, 1), Answer(1, 1), Answer(2, 2)];
    ScoreExample();
    var submitted := SubmitQuiz(db, student, id, answers);
    assert submitted == Ok(2);
    var s := Submission(id, 2, answers, 2);
    assert db.submissions[|db.submissions| - 1] == s;
    assert s in db.submissions && IsAttempt(s, id, student.id);
    var result := GetMyResult(db, student, id);
    assert result.Ok? && !result.value.NoSubmission?;
    LatestAfterSubmit(old(db.submissions), s);
    assert result.value.score == 2 && result.value.totalQuestions == 3;
  }

  /** Sign up, log in with the same credentials, and fail to sign up again. */
  method SignupLoginRoundTrip()
  {
    var db := new Database(s => "#" + s);
    var req := SignupRequest("Asha", "asha@uni.edu", "secret1", "student", Some(2), Some("CSE"));
    var users0, id0 := db.users, db.nextId;
    var r := Signup(db, req);
    assert r.Ok?;
    SignupThenLogin(users0, db.hash, req, id0);
    assert Login(db.users, db.hash, "asha@uni.edu", "secret1") == r;
    assert Login(db.users, db.hash, "asha@uni.edu", "secret2").Err? <== db.hash("secret2") != db.hash("secret1");

    var again := Signup(db, req);
    assert again == Err(EmailTaken);
    var noYear := Signup(db, req.(email := "ravi@uni.edu", year := None));
    assert noYear == Err(CohortRequired);
  }
}
