/**
 * What a student sees: the quiz to take, with the answer key stripped, and the
 * per-question breakdown of their latest submission.
 */
module StudentViews {
  import opened Responses
  import opened Models
  import opened Scoring

  /** A question as served for taking: text and options only, no correctAnswer. */
  datatype PublicQuestion = PublicQuestion(questionText: string, options: seq<string>)

  /** takeQuiz's projection of every question onto its text and options. */
  function StripAnswers(questions: seq<Question>): (r: seq<PublicQuestion>)
    ensures |r| == |questions|
    ensures forall i :: 0 <= i < |questions| ==>
      r[i].questionText == questions[i].questionText && r[i].options == questions[i].options
  {
    if |questions| == 0 then []
    else [PublicQuestion(questions[0].questionText, questions[0].options)] + StripAnswers(questions[1..])
  }

  /** Two question lists that differ only in their answer keys look the same to a student. */
  lemma StripHidesKey(a: seq<Question>, b: seq<Question>)
    requires |a| == |b|
    requires forall i :: 0 <= i < |a| ==> a[i].questionText == b[i].questionText && a[i].options == b[i].options
    ensures StripAnswers(a) == StripAnswers(b)
  {
  }

  /** One row of getMyResult's detailed breakdown. */
  datatype QuestionResult = QuestionResult(
    questionText: string,
    options: seq<string>,
    correctAnswer: int,
    studentAnswer: Option<int>,
    isCorrect: bool)

  function ResultFor(q: Question, answers: seq<Answer>, i: nat): QuestionResult {
    var a := FindAnswer(answers, i);
    QuestionResult(q.questionText, q.options, q.correctAnswer,
                   if a.Some? then Some(a.value.selectedOption) else None,
                   a.Some? && a.value.selectedOption == q.correctAnswer)
  }

  /** getMyResult's row for every question, in order. */
  function Detailed(questions: seq<Question>, answers: seq<Answer>): (r: seq<QuestionResult>)
    ensures |r| == |questions|
    ensures forall i :: 0 <= i < |questions| ==>
      r[i].questionText == questions[i].questionText &&
      r[i].options == questions[i].options &&
      r[i].correctAnswer == questions[i].correctAnswer &&
      (r[i].studentAnswer.Some? <==> exists k :: 0 <= k < |answers| && answers[k].questionIndex == i) &&
      (r[i].studentAnswer.Some? ==> r[i].studentAnswer.value == FindAnswer(answers, i).value.selectedOption) &&
      (r[i].isCorrect <==> Correct(questions, answers, i))
  {
    seq(|questions|, i requires 0 <= i < |questions| => ResultFor(questions[i], answers, i))
  }

  /** Number of rows flagged correct. */
  function CountCorrectFlags(rows: seq<QuestionResult>): (c: nat)
    ensures c <= |rows|
  {
    if |rows| == 0 then 0
    else CountCorrectFlags(rows[..|rows| - 1]) + (if rows[|rows| - 1].isCorrect then 1 else 0)
  }

  /**
   * The breakdown agrees with the scoring engine: as long as the quiz is unchanged
   * since the submission, the rows flagged correct number exactly the stored score.
   */
  lemma DetailedCountIsScore(questions: seq<Question>, answers: seq<Answer>)
    ensures CountCorrectFlags(Detailed(questions, answers)) == Score(questions, answers)
  {
    var rows := Detailed(questions, answers);
    PrefixCount(questions, answers, rows, |questions|);
    assert rows[..|questions|] == rows;
  }

  lemma {:induction false} PrefixCount(questions: seq<Question>, answers: seq<Answer>, rows: seq<QuestionResult>, n: nat)
    requires rows == Detailed(questions, answers) && n <= |questions|
    ensures CountCorrectFlags(rows[..n]) == CorrectBelow(questions, answers, n)
  {
    if n > 0 {
      PrefixCount(questions, answers, rows, n - 1);
      assert rows[..n][..n - 1] == rows[..n - 1];
    }
  }

  predicate IsAttempt(s: Submission, quizId: Id, studentId: Id) {
    s.quizId == quizId && s.studentId == studentId
  }

  /** Index of the last submission of the pair, or -1 when there is none. */
  function LastMatch(subs: seq<Submission>, quizId: Id, studentId: Id): (k: int)
    ensures -1 <= k < |subs|
    ensures forall j :: k < j < |subs| ==> !IsAttempt(subs[j], quizId, studentId)
    ensures k >= 0 ==> IsAttempt(subs[k], quizId, studentId)
  {
    if |subs| == 0 then -1
    else if IsAttempt(subs[|subs| - 1], quizId, studentId) then |subs| - 1
    else
      var k := LastMatch(subs[..|subs| - 1], quizId, studentId);
      assert forall j :: 0 <= j < |subs| - 1 ==> subs[j] == subs[..|subs| - 1][j];
      k
  }

  /**
   * A student's latest attempt at a quiz: the last stored submission for the pair
   * (stored submissions are in creation order).
   */
  function LatestSubmission(subs: seq<Submission>, quizId: Id, studentId: Id): (r: Option<Submission>)
    ensures r.None? <==> forall k :: 0 <= k < |subs| ==> !IsAttempt(subs[k], quizId, studentId)
    ensures r.Some? ==> IsAttempt(r.value, quizId, studentId)
    ensures r.Some? ==>
      exists k :: 0 <= k < |subs| && subs[k] == r.value && (forall j :: k < j < |subs| ==> !IsAttempt(subs[j], quizId, studentId))
  {
    var k := LastMatch(subs, quizId, studentId);
    if k >= 0 then Some(subs[k]) else None
  }

  /** A new attempt becomes the latest one. */
  lemma LatestAfterSubmit(subs: seq<Submission>, s: Submission)
    ensures LatestSubmission(subs + [s], s.quizId, s.studentId) == Some(s)
  {
  }
}
