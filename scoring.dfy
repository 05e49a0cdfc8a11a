/**
 * The scoring engine of submitQuiz: for each question i, the first answer whose
 * questionIndex is i counts when its selectedOption equals the answer key.
 */
module Scoring {
  import opened Responses
  import opened Models

  /** Index of the first answer for question `i`, or |answers| when there is none. */
  function FirstMatch(answers: seq<Answer>, i: int): (k: nat)
    ensures k <= |answers|
    ensures forall j :: 0 <= j < k ==> answers[j].questionIndex != i
    ensures k < |answers| ==> answers[k].questionIndex == i
  {
    if |answers| == 0 then 0
    else if answers[0].questionIndex == i then 0
    else 1 + FirstMatch(answers[1..], i)
  }

  /** The first answer that names question i, if any. */
  function FindAnswer(answers: seq<Answer>, i: int): (r: Option<Answer>)
    ensures r.Some? <==> exists k :: 0 <= k < |answers| && answers[k].questionIndex == i
    ensures r.Some? ==> r.value.questionIndex == i && r.value in answers
    ensures r.Some? ==> r.value == answers[FirstMatch(answers, i)]
  {
    var k := FirstMatch(answers, i);
    if k < |answers| then Some(answers[k]) else None
  }

  /** Question `i` is answered, by its first answer, with the key's option. */
  predicate Correct(questions: seq<Question>, answers: seq<Answer>, i: nat)
    requires i < |questions|
  {
    var a := FindAnswer(answers, i);
    a.Some? && a.value.selectedOption == questions[i].correctAnswer
  }

  /** Number of correctly answered questions among the first `n`. */
  function CorrectBelow(questions: seq<Question>, answers: seq<Answer>, n: nat): (c: nat)
    requires n <= |questions|
    ensures c <= n
  {
    if n == 0 then 0
    else CorrectBelow(questions, answers, n - 1) + (if Correct(questions, answers, n - 1) then 1 else 0)
  }

  /** The score of a submission against the quiz's questions. */
  function Score(questions: seq<Question>, answers: seq<Answer>): (s: nat)
    ensures s <= |questions|
  {
    CorrectBelow(questions, answers, |questions|)
  }

  /** The answer lookup inside the scoring loop, as a linear search. */
  method FindFirst(answers: seq<Answer>, i: int) returns (r: Option<Answer>)
    ensures r == FindAnswer(answers, i)
  {
    var k := 0;
    while k < |answers| && answers[k].questionIndex != i
      invariant 0 <= k <= |answers|
      invariant forall j :: 0 <= j < k ==> answers[j].questionIndex != i
    {
      k := k + 1;
    }
    r := if k < |answers| then Some(answers[k]) else None;
  }

  /** The loop of submitQuiz that walks the questions and increments a local score. */
  method ComputeScore(questions: seq<Question>, answers: seq<Answer>) returns (score: nat)
    ensures score == Score(questions, answers)
    ensures score <= |questions|
  {
    score := 0;
    var i := 0;
    while i < |questions|
      invariant 0 <= i <= |questions|
      invariant score == CorrectBelow(questions, answers, i)
    {
      var answer := FindFirst(answers, i);
      if answer.Some? && answer.value.selectedOption == questions[i].correctAnswer {
        score := score + 1;
      }
      i := i + 1;
    }
  }

  /** The full score is reached exactly when every question is answered correctly. */
  lemma {:induction false} FullScoreIffAllCorrect(questions: seq<Question>, answers: seq<Answer>, n: nat)
    requires n <= |questions|
    ensures CorrectBelow(questions, answers, n) == n <==> forall i :: 0 <= i < n ==> Correct(questions, answers, i)
  {
    if n > 0 {
      FullScoreIffAllCorrect(questions, answers, n - 1);
    }
  }

  /** The score is zero exactly when no question is answered correctly. */
  lemma {:induction false} ZeroScoreIffNoneCorrect(questions: seq<Question>, answers: seq<Answer>, n: nat)
    requires n <= |questions|
    ensures CorrectBelow(questions, answers, n) == 0 <==> forall i :: 0 <= i < n ==> !Correct(questions, answers, i)
  {
    if n > 0 {
      ZeroScoreIffNoneCorrect(questions, answers, n - 1);
    }
  }

  /**
   * An answer that names no question, or a question an earlier answer already
   * names, does not change the score, wherever it sits in the list.
   */
  lemma IrrelevantAnswerAddsNothing(questions: seq<Question>, a: seq<Answer>, x: Answer, b: seq<Answer>)
    requires x.questionIndex < 0 || x.questionIndex >= |questions|
      || exists k :: 0 <= k < |a| && a[k].questionIndex == x.questionIndex
    ensures Score(questions, a + [x] + b) == Score(questions, a + b)
  {
    forall i | 0 <= i < |questions|
      ensures FindAnswer(a + [x] + b, i) == FindAnswer(a + b, i)
    {
      FindAnswerSkips(a, x, b, i);
    }
    SameFindsSameCount(questions, a + [x] + b, a + b, |questions|);
  }

  /** The lookup for question i skips an answer that does not name i or comes after one that does. */
  lemma {:induction false} FindAnswerSkips(a: seq<Answer>, x: Answer, b: seq<Answer>, i: int)
    requires x.questionIndex != i || exists k :: 0 <= k < |a| && a[k].questionIndex == i
    ensures FindAnswer(a + [x] + b, i) == FindAnswer(a + b, i)
  {
    var s, t := a + [x] + b, a + b;
    var k := FirstMatch(a, i);
    if k < |a| {
      FirstMatchIs(s, i, k);
      FirstMatchIs(t, i, k);
      assert s[k] == a[k] == t[k];
    } else {
      var m := FirstMatch(b, i);
      FirstMatchIs(s, i, |a| + 1 + m);
      FirstMatchIs(t, i, |a| + m);
      if m < |b| {
        assert s[|a| + 1 + m] == b[m] == t[|a| + m];
      }
    }
  }

  /** An index before which no answer names i, and at which one does (or the end), is the first match. */
  lemma FirstMatchIs(s: seq<Answer>, i: int, k: nat)
    requires k <= |s|
    requires forall j :: 0 <= j < k ==> s[j].questionIndex != i
    requires k < |s| ==> s[k].questionIndex == i
    ensures FirstMatch(s, i) == k
  {
  }

  /** Two answer lists that agree on the first answer of every question score alike. */
  lemma {:induction false} SameFindsSameCount(questions: seq<Question>, a: seq<Answer>, b: seq<Answer>, n: nat)
    requires n <= |questions|
    requires forall i :: 0 <= i < n ==> FindAnswer(a, i) == FindAnswer(b, i)
    ensures CorrectBelow(questions, a, n) == CorrectBelow(questions, b, n)
  {
    if n > 0 {
      SameFindsSameCount(questions, a, b, n - 1);
    }
  }

  /** Example: key [1, 0, 2] against answers (0,1), (1,1), (2,2) scores 2. */
  lemma ScoreExample()
    ensures Score([Question("q0", ["a", "b"], 1), Question("q1", ["a", "b"], 0), Question("q2", ["a", "b", "c"], 2)],
                  [Answer(0, 1), Answer(1, 1), Answer(2, 2)]) == 2
  {
  }
}
