/**
 * The aggregation of quizAnalytics: highest, lowest and summed score over a quiz's
 * submissions, and the rounded percentage of submissions whose POSITIONAL answer
 * `answers[i]` matches the key of question i.
 */
module Analytics {
  import opened Responses
  import opened Models
  import opened Scoring

  datatype QuestionStat = QuestionStat(questionText: string, correctPercent: nat)

  /**
   * The analytics body. `NoSubmissions` is the informational answer for an empty
   * submission set; the mean is `scoreSum / total`.
   */
  datatype Report =
    | NoSubmissions
    | Stats(highest: int, lowest: int, scoreSum: int, total: nat, questionWise: seq<QuestionStat>)

  function ScoresOf(subs: seq<Submission>): (r: seq<int>)
    ensures |r| == |subs|
    ensures forall k :: 0 <= k < |subs| ==> r[k] == subs[k].score
  {
    seq(|subs|, k requires 0 <= k < |subs| => subs[k].score)
  }

  /** The highest of a non-empty list of scores. */
  function Highest(xs: seq<int>): (m: int)
    requires |xs| > 0
    ensures m in xs
    ensures forall x :: x in xs ==> x <= m
  {
    if |xs| == 1 then xs[0]
    else
      var rest := Highest(xs[1..]);
      assert forall x :: x in xs ==> x == xs[0] || x in xs[1..];
      if xs[0] >= rest then xs[0] else rest
  }

  /** The lowest of a non-empty list of scores. */
  function Lowest(xs: seq<int>): (m: int)
    requires |xs| > 0
    ensures m in xs
    ensures forall x :: x in xs ==> m <= x
  {
    if |xs| == 1 then xs[0]
    else
      var rest := Lowest(xs[1..]);
      assert forall x :: x in xs ==> x == xs[0] || x in xs[1..];
      if xs[0] <= rest then xs[0] else rest
  }

  /** The total of the scores, from which the mean is taken. */
  function Sum(xs: seq<int>): int {
    if |xs| == 0 then 0 else xs[0] + Sum(xs[1..])
  }

  /** A lower bound of every element bounds the mean from below. */
  lemma {:induction false} SumAtLeast(xs: seq<int>, lo: int)
    requires forall x :: x in xs ==> lo <= x
    ensures lo * |xs| <= Sum(xs)
  {
    if |xs| > 0 {
      assert xs[0] in xs;
      assert forall x :: x in xs[1..] ==> x in xs;
      SumAtLeast(xs[1..], lo);
      assert lo * |xs| == lo + lo * |xs[1..]|;
    }
  }

  /** An upper bound of every element bounds the mean from above. */
  lemma {:induction false} SumAtMost(xs: seq<int>, hi: int)
    requires forall x :: x in xs ==> x <= hi
    ensures Sum(xs) <= hi * |xs|
  {
    if |xs| > 0 {
      assert xs[0] in xs;
      assert forall x :: x in xs[1..] ==> x in xs;
      SumAtMost(xs[1..], hi);
      assert hi * |xs| == hi + hi * |xs[1..]|;
    }
  }

  /** lowest <= mean <= highest, with the mean kept as sum over count. */
  lemma MeanBetween(xs: seq<int>)
    requires |xs| > 0
    ensures Lowest(xs) * |xs| <= Sum(xs) <= Highest(xs) * |xs|
  {
    SumAtLeast(xs, Lowest(xs));
    SumAtMost(xs, Highest(xs));
  }

  /** The submission has an answer at position i and it selects the key. */
  predicate PositionallyCorrect(s: Submission, i: nat, key: int) {
    i < |s.answers| && s.answers[i].selectedOption == key
  }

  /** How many submissions answer question i correctly, by position. */
  function CorrectCount(subs: seq<Submission>, i: nat, key: int): (c: nat)
    ensures c <= |subs|
    ensures c == 0 <==> forall k :: 0 <= k < |subs| ==> !PositionallyCorrect(subs[k], i, key)
    ensures c == |subs| <==> forall k :: 0 <= k < |subs| ==> PositionallyCorrect(subs[k], i, key)
  {
    if |subs| == 0 then 0
    else
      var rest := CorrectCount(subs[1..], i, key);
      assert forall k :: 1 <= k < |subs| ==> subs[k] == subs[1..][k - 1];
      rest + (if PositionallyCorrect(subs[0], i, key) then 1 else 0)
  }

  /**
   * The percentage c of n, rounded to the nearest integer for 0 <= c <= n:
   * halves are rounded up.
   */
  function RoundPercent(c: nat, n: nat): (p: nat)
    requires 0 < n && c <= n
    ensures p <= 100
    ensures 2 * n * p <= 200 * c + n < 2 * n * (p + 1)
  {
    var p := (200 * c + n) / (2 * n);
    DivBounds(200 * c + n, 2 * n, 101);
    p
  }

  /** Helper: the quotient brackets the dividend and inherits a bound on it. */
  lemma DivBounds(x: nat, d: nat, bound: nat)
    requires 0 < d && x < d * bound
    ensures x / d < bound
    ensures d * (x / d) <= x < d * (x / d + 1)
  {
  }

  /** A question answered correctly by 2 of 4 submissions gets 50 percent. */
  lemma TwoOfFourIsFifty()
    ensures RoundPercent(2, 4) == 50
  {
  }

  function QuestionWise(questions: seq<Question>, subs: seq<Submission>): (r: seq<QuestionStat>)
    requires |subs| > 0
    ensures |r| == |questions|
    ensures forall i :: 0 <= i < |questions| ==>
      r[i].questionText == questions[i].questionText &&
      r[i].correctPercent == RoundPercent(CorrectCount(subs, i, questions[i].correctAnswer), |subs|)
  {
    seq(|questions|, i requires 0 <= i < |questions| =>
      QuestionStat(questions[i].questionText,
                   RoundPercent(CorrectCount(subs, i, questions[i].correctAnswer), |subs|)))
  }

  /** The whole analytics computation over the submissions of one quiz. */
  function Analyze(questions: seq<Question>, subs: seq<Submission>): (r: Report)
    ensures r.NoSubmissions? <==> |subs| == 0
    ensures r.Stats? ==>
      r.total == |subs| &&
      (exists k :: 0 <= k < |subs| && subs[k].score == r.highest) &&
      (exists k :: 0 <= k < |subs| && subs[k].score == r.lowest) &&
      (forall k :: 0 <= k < |subs| ==> r.lowest <= subs[k].score <= r.highest) &&
      r.lowest * r.total <= r.scoreSum <= r.highest * r.total &&
      |r.questionWise| == |questions| &&
      (forall i :: 0 <= i < |questions| ==> r.questionWise[i].correctPercent <= 100)
    ensures r.Stats? ==>
      var scores := ScoresOf(subs);
      r.highest == Highest(scores) && r.lowest == Lowest(scores) &&
      r.scoreSum == Sum(scores) && r.questionWise == QuestionWise(questions, subs)
  {
    if |subs| == 0 then NoSubmissions
    else
      var scores := ScoresOf(subs);
      MeanBetween(scores);
      assert forall k :: 0 <= k < |subs| ==> subs[k].score in scores;
      Stats(Highest(scores), Lowest(scores), Sum(scores), |subs|, QuestionWise(questions, subs))
  }

  /**
   * Analytics reads `answers[i]` by position while scoring looks answers up by
   * questionIndex; the two agree when the answers are listed in question order.
   */
  lemma AlignedAnswersAgreeWithScoring(questions: seq<Question>, s: Submission, i: nat)
    requires i < |questions| && i < |s.answers|
    requires forall j :: 0 <= j < |s.answers| ==> s.answers[j].questionIndex == j
    ensures PositionallyCorrect(s, i, questions[i].correctAnswer) <==> Correct(questions, s.answers, i)
  {
  }

  /**
   * Without that order the two disagree: a submission that answers only question 1,
   * with option 0, is counted correct for question 0 by the analytics although the
   * scoring engine gives question 0 no credit.
   */
  lemma UnalignedAnswersDisagree()
    ensures var qs := [Question("q0", ["a", "b"], 0), Question("q1", ["a", "b"], 0)];
            var s := Submission(0, 0, [Answer(1, 0)], 1);
            PositionallyCorrect(s, 0, qs[0].correctAnswer) && !Correct(qs, s.answers, 0)
  {
  }
}
