# Quiz platform: quiz lifecycle, scoring and analytics

A Dafny model of the back end of a role-based quiz platform. Faculty create
quizzes, edit their question lists by position, and toggle them between draft and
published. Students take published quizzes with the answer key stripped, submit
answers, and see their latest result question by question. Owners read
per-quiz analytics. A small signup/login/verify rule set sits over the user
records.

Modules, following the source files:

- `Models` (`models.dfy`): the Quiz, Question, User and Submission records of
  `backend/models/Quiz.js` and `backend/models/User.js`. It holds the role,
  branch and status enums, the schema constraints a save enforces (`ValidQuiz`,
  `ValidUser`), the status toggle and the password pre-save hook.
- `Scoring` (`scoring.dfy`): the scoring loop of `submitQuiz`. `Score` is the
  specification and `ComputeScore` is the loop proved against it.
- `Analytics` (`analytics.dfy`): highest, lowest and summed score, and the
  per-question correct percentage of `quizAnalytics`.
- `StudentViews` (`views.dfy`): the answer-key stripping of `takeQuiz`, the
  per-question breakdown of `getMyResult`, and the lookup of a student's
  latest submission.
- `Store` (`store.dfy`): the in-memory database. The class `Database` holds a
  map from quiz id to Quiz, an append-only sequence of submissions and a
  sequence of users. Its object invariant `Valid()` says that every stored
  document satisfies its schema and that user ids and emails are unique. A
  ghost log records every "quiz published" notification.
- `QuizController` (`quiz_controller.dfy`) and `AuthController`
  (`auth_controller.dfy`): one method per handler. Each returns `Ok(body)` or
  `Err(Error(status, message))`, except `ListQuizzes`, which cannot fail and
  returns the map of visible quizzes. On every error the whole store is
  unchanged, stated as `db.Snapshot() == old(db.Snapshot())`. The quiz
  handlers that only read (`TakeQuiz`, `ListQuizzes`, `GetSubmissions`,
  `QuizAnalytics`, `GetMyResult`) are methods that modify nothing; only
  `Login` and `Verify` are functions over the user sequence.
- `Scenarios` (`scenarios.dfy`): client methods that use the handlers only
  through their contracts. They cover authoring (create, add two questions,
  reword one, list), a non-owner's rejected delete, delete then create (the new
  quiz inherits no submissions), publish/take/submit/read-back, and signup then
  login.

Conventions: an empty string stands for a missing or empty string field. Both
are falsy in the source's `x || y` and `!x` tests. `Option` stands for a
missing number, options array or branch. A failed schema validation at save
time is the source's 500 response. The model returns it and leaves the store
unchanged.

Behaviours the model keeps exactly as the code has them:

- `getMyResult` answers 404 for an unpublished quiz, not only for a missing one.
- `deleteQuestion` with a negative index removes counting from the end, as
  `splice` does.
- `addQuestion` accepts an empty options array.
- No mutator checks the answer key against the number of options.
- Publishing notifies every student, whatever the quiz's target cohort.
- Students list every published quiz, whatever its target cohort.

## Model

| member | source | states |
|---|---|---|
| `Models.ParseRole` | backend/models/User.js:8 | a role is accepted exactly when it is "faculty" or "student", and it names that enum value |
| `Models.ParseBranch` | backend/models/User.js:10 | a branch is accepted exactly when it is one of CSE, MNC, MAE, ECE, and it names that enum value |
| `Models.ParseBranchName` | backend/models/Quiz.js:15 | every branch enum value parses back to itself |
| `Models.ValidQuestion` | backend/models/Quiz.js:3-7 | the question sub-schema: a non-empty text and only non-empty options; no bound ties the key to the options |
| `Models.ValidQuiz` | backend/models/Quiz.js:9-16 | the quiz schema: a non-empty title, a target year in 1..4 when present, and valid questions |
| `Models.ValidUser` | backend/models/User.js:4-11 | the user schema on the stored fields: a non-empty name and email and a year in 1..4 when present (role and branch are enums by type) |
| `Models.SchemaBoundaries` | backend/models/Quiz.js:3-16 | an empty text, title or option and a year outside 1..4 are rejected; an empty options array, a key outside the options and an absent year are accepted |
| `Models.NewQuiz` | backend/models/Quiz.js:9-17 | a new quiz keeps the given title and description, starts as draft, owned by the given faculty id, with the given questions and no target cohort; it passes the schema exactly when its title and every question do |
| `Models.Toggle` | backend/controllers/quizController.js:62-63 | publishing always changes the status (draft to published, published to draft) |
| `Models.ToggleTwice` | backend/controllers/quizController.js:63 | two toggles restore the original status |
| `Models.PreSave` | backend/models/User.js:13-17 | the password is replaced by its hash only when it was modified; every other field is kept |
| `Scoring.FirstMatch` | backend/controllers/quizController.js:167 | the index found is the first answer for question i, or the end when none names it |
| `Scoring.FindAnswer` | backend/controllers/quizController.js:167 | an answer is found exactly when some answer names question i, and the one found is the first such answer |
| `Scoring.CorrectBelow` | backend/controllers/quizController.js:165-169 | the count of correct questions among the first n never exceeds n |
| `Scoring.Score` | backend/controllers/quizController.js:165-169 | 0 <= score <= number of questions |
| `Scoring.FindFirst` | backend/controllers/quizController.js:167 | the linear search returns the first answer with questionIndex = i, or none |
| `Scoring.ComputeScore` | backend/controllers/quizController.js:165-169 | the forEach loop computes exactly `Score`: the positions whose first answer selects the key |
| `Scoring.FullScoreIffAllCorrect` | backend/controllers/quizController.js:165-169 | the score equals the question count exactly when every question is answered correctly |
| `Scoring.ZeroScoreIffNoneCorrect` | backend/controllers/quizController.js:165-169 | the score is 0 exactly when no question is answered correctly |
| `Scoring.IrrelevantAnswerAddsNothing` | backend/controllers/quizController.js:166-168 | an answer at any position whose questionIndex is out of range, or names a question an earlier answer already names, leaves the score unchanged |
| `Scoring.ScoreExample` | backend/controllers/quizController.js:165-169 | key [1,0,2] against answers (0,1),(1,1),(2,2) scores 2 |
| `Analytics.ScoresOf` | backend/controllers/quizController.js:203 | the score list has one entry per submission, in order |
| `Analytics.Highest` | backend/controllers/quizController.js:204 | the highest score is one of the scores and bounds all of them |
| `Analytics.Lowest` | backend/controllers/quizController.js:205 | the lowest score is one of the scores and is below all of them |
| `Analytics.MeanBetween` | backend/controllers/quizController.js:203-206 | lowest * count <= sum <= highest * count, i.e. lowest <= mean <= highest |
| `Analytics.CorrectCount` | backend/controllers/quizController.js:209 | the count of submissions whose positional answer i selects the key is at most the submission count; it is 0 or the full count exactly when none or all do |
| `Analytics.RoundPercent` | backend/controllers/quizController.js:212 | the percentage lies in [0,100] and is the nearest integer to 100c/n, halves rounded up |
| `Analytics.TwoOfFourIsFifty` | backend/controllers/quizController.js:212 | a question correct in 2 of 4 submissions gets 50 |
| `Analytics.QuestionWise` | backend/controllers/quizController.js:208-214 | one entry per question, in order, with its text and its rounded correct percentage |
| `Analytics.Analyze` | backend/controllers/quizController.js:202-215 | no submissions gives the informational result; otherwise total = submission count, highest and lowest are the `Highest`/`Lowest` of the scores (attained and bounding every score), scoreSum is their `Sum`, lowest <= mean <= highest, and the per-question entries are `QuestionWise`, one percentage in [0,100] per question |
| `Analytics.AlignedAnswersAgreeWithScoring` | backend/controllers/quizController.js:209 | when answers are listed in question order, the positional test of the analytics agrees with the scoring rule |
| `Analytics.UnalignedAnswersDisagree` | backend/controllers/quizController.js:209 | otherwise they can disagree: a lone answer to question 1 is counted for question 0 by the analytics but not by the scoring |
| `StudentViews.StripAnswers` | backend/controllers/quizController.js:152 | the taken quiz has the same number of questions in the same order, each with only its text and options |
| `StudentViews.StripHidesKey` | backend/controllers/quizController.js:152 | two question lists that differ only in their answer keys are served identically |
| `StudentViews.Detailed` | backend/controllers/quizController.js:232-241 | one row per question with its text, options and key; a student answer exactly when one names the question, and then the option chosen by the first such answer; isCorrect exactly when the scoring rule counts it |
| `StudentViews.DetailedCountIsScore` | backend/controllers/quizController.js:232-241 | the rows flagged correct number exactly the score for those questions and answers |
| `StudentViews.LastMatch` | backend/controllers/quizController.js:228 | the index found is the last submission of the (quiz, student) pair, or -1 when there is none |
| `StudentViews.LatestSubmission` | backend/controllers/quizController.js:228 | none exactly when the pair has no submission; otherwise a submission of the pair with no later one |
| `StudentViews.LatestAfterSubmit` | backend/controllers/quizController.js:228 | a new submission becomes the student's latest one for that quiz |
| `Store.Database.Valid` | backend/models/User.js:4-11 | the store invariant every handler keeps: every stored quiz and user satisfies its schema; quiz ids, user ids and the quiz id of every stored submission are below the next fresh id; user ids are distinct; and emails are unique as the unique index demands |
| `QuizController.OwnerGuard` | backend/controllers/quizController.js:27-30 | 404 exactly when the quiz is absent, 403 exactly when it exists but the caller is not its faculty owner, pass otherwise |
| `QuizController.ReaderGuard` | backend/controllers/quizController.js:199-200 | analytics and submissions pass only for the faculty owner; a missing quiz is a 403 |
| `QuizController.PatchQuiz` | backend/controllers/quizController.js:31-32 | an empty title or description keeps the old value; nothing else changes; a valid quiz stays valid |
| `QuizController.PatchQuizIdempotent` | backend/controllers/quizController.js:31-32 | applying the same update twice equals applying it once; an empty update changes nothing |
| `QuizController.PatchQuestion` | backend/controllers/quizController.js:121-123 | only a non-empty text, a supplied options array and a numeric key overwrite; a valid question stays valid unless the new options contain an empty string |
| `QuizController.PatchQuestionIdempotent` | backend/controllers/quizController.js:121-123 | the same question update twice equals once; an empty update changes nothing |
| `QuizController.RemoveAt` | backend/controllers/quizController.js:139 | removing position k keeps the earlier elements, shifts the later ones down and removes exactly one occurrence |
| `QuizController.SpliceOne` | backend/controllers/quizController.js:139 | splice(index, 1) removes the element at a valid index, counts a negative index from the end, and is a no-op at or past the end |
| `QuizController.DeleteUndoesAppend` | backend/controllers/quizController.js:103 | deleting the question just appended restores the list |
| `QuizController.StudentEmails` | backend/controllers/quizController.js:68-69 | the recipients are exactly the emails of the student users |
| `QuizController.SubmissionsFor` | backend/controllers/quizController.js:201 | a submission is listed exactly when it is stored for the quiz |
| `QuizController.SubmissionsForCounts` | backend/controllers/quizController.js:201 | every submission of the quiz is listed as many times as it is stored, and no other is listed, so the count is the quiz's submission count |
| `QuizController.SubmissionsForAppend` | backend/controllers/quizController.js:201 | the listing keeps creation order: it distributes over concatenation of the stored sequence |
| `QuizController.SubmissionsForAfterSubmit` | backend/controllers/quizController.js:170-175 | a newly stored submission for the quiz is listed last; one for another quiz leaves the listing unchanged |
| `QuizController.CreateQuiz` | backend/controllers/quizController.js:9-18 | an empty title is a 400 and stores nothing; a schema failure is the 500 "Quiz creation failed" and stores nothing; otherwise the next counter value, never used before and named by no stored submission, maps to a draft owned by the caller with the given title, description and questions (or none); the counter advances and nothing else changes |
| `QuizController.UpdateQuiz` | backend/controllers/quizController.js:27-34 | guard errors leave the store unchanged; otherwise only that quiz's title/description change, falsy values keeping the old ones |
| `QuizController.DeleteQuiz` | backend/controllers/quizController.js:43-48 | guard errors leave the store unchanged; otherwise only that quiz is removed, and its submissions stay |
| `QuizController.PublishQuiz` | backend/controllers/quizController.js:57-72 | guard errors leave the store unchanged; otherwise the status flips, and one notification to all students is recorded exactly when the quiz moves into published |
| `QuizController.ListQuizzes` | backend/controllers/quizController.js:81-87 | faculty get exactly their own quizzes, students exactly the published ones |
| `QuizController.AddQuestion` | backend/controllers/quizController.js:96-105 | guard errors, then 400 for a missing text, options or numeric key, leave the store unchanged; a schema failure is the 500 "Add question failed" and changes nothing; otherwise the question is appended and earlier ones are unchanged; the key is not bounded by the options |
| `QuizController.UpdateQuestion` | backend/controllers/quizController.js:114-125 | guard errors, then 404 for an index with no question, leave the store unchanged; it succeeds exactly when the guard passes, the index holds a question and the patched question is schema-valid, and is otherwise the 500 "Update question failed"; then only that position is patched |
| `QuizController.DeleteQuestion` | backend/controllers/quizController.js:134-141 | guard errors leave the store unchanged; otherwise the question list becomes splice(index, 1) of the old one |
| `QuizController.TakeQuiz` | backend/controllers/quizController.js:150-153 | 404 unless the quiz exists and is published; otherwise its title, description and stripped questions |
| `QuizController.SubmitQuiz` | backend/controllers/quizController.js:162-176 | 404 unless published, store unchanged; otherwise the score is `Score` (at most the question count) and exactly one submission with that score is appended |
| `QuizController.GetSubmissions` | backend/controllers/quizController.js:185-189 | 403 unless the caller owns the quiz; otherwise exactly `SubmissionsFor` the stored submissions, in creation order and with multiplicity |
| `QuizController.QuizAnalytics` | backend/controllers/quizController.js:198-215 | 403 unless the caller owns the quiz; otherwise `Analyze` over its submissions, informational exactly when there are none |
| `QuizController.GetMyResult` | backend/controllers/quizController.js:226-249 | 404 unless published; a null-score result exactly when the caller has no submission; otherwise the latest submission's frozen score, the question count and the detailed rows |
| `AuthController.Summary` | backend/controllers/authController.js:21 | the summary carries id, name, email, role, year and branch of the user |
| `AuthController.SummaryHidesPassword` | backend/controllers/authController.js:21 | the summary does not depend on the password |
| `AuthController.EmailIndex` | backend/controllers/authController.js:15 | the index found is the first user with that email, or the end |
| `AuthController.FindByEmail` | backend/controllers/authController.js:15 | a user is found exactly when one has that email |
| `AuthController.FindById` | backend/controllers/authController.js:47 | a user is found exactly when one has that id |
| `AuthController.SignupGuard` | backend/controllers/authController.js:8-16 | 400 for a missing name/email/password/role; then 400 for a student without a truthy year or branch; then 400 for a registered email; pass exactly when none of these holds |
| `AuthController.Candidate` | backend/models/User.js:4-11 | the saved user exists exactly when role, year and branch satisfy the schema; it keeps the request's fields and stores the hashed password |
| `AuthController.StudentHasCohort` | backend/controllers/authController.js:11-13 | a student who passes the checks is stored with a year and a branch |
| `AuthController.Signup` | backend/controllers/authController.js:8-21 | every rejection leaves the store unchanged; past the guard a schema failure is the 500 "Signup failed"; success appends exactly one user with the next counter value as id, advances the counter and returns its summary; emails stay unique |
| `AuthController.Login` | backend/controllers/authController.js:29-34 | an unknown email and a wrong password give the same 400; success returns the summary of the user with that email and a matching hash |
| `AuthController.Verify` | backend/controllers/authController.js:47-49 | 404 exactly when no user has the id; otherwise that user's summary |
| `AuthController.SignupThenLogin` | backend/controllers/authController.js:15-34 | after a successful signup, logging in with the same email and password returns the new user |

## Left out

- Persistence: the database is an in-memory class. Ids are numbers drawn from
  a counter that never goes back, so an id is never reissued, even after its
  quiz is deleted; they are not ObjectIds, so a malformed id (a cast error answered with 500) does not arise.
  Timestamps are not modelled: the latest submission is the last one
  appended.
- `StudentViews.LatestSubmission`: picks the last appended submission of the
  pair instead of sorting by `submittedAt`. The two agree when submissions are
  stored in creation order.
- Mail delivery (`backend/utils/emailService.js`) is not modelled. A publish
  records a ghost `Notification` with the recipients' addresses. Delivery
  failures never reach the caller in the source either.
- Token issuing, cookies and the session middleware (`backend/utils/token.js`)
  are not modelled. The caller's id and role are a `Caller` parameter. `logout`
  only clears a cookie and is not modelled.
- bcrypt is a hash function fixed when the store is built.
  `comparePassword(c)` is modelled as `hash(c) == stored`. Salting is not
  modelled.
- `Analytics.Analyze`: the mean is kept as the score sum over the count, not
  as the one-decimal string of `toFixed(1)`. The percentage uses exact integer
  rounding, so floating-point effects of `(c / n) * 100` are not modelled.
- `Analytics.RoundPercent`: rounds the exact value 100c/n, halves up. The
  source rounds the float `(c / n) * 100`, which can fall just below a half:
  for c = 23, n = 40 it computes 57.49999999999999 and `Math.round` gives 57,
  while the model gives 58.
- Other store failures and their 500 responses are not modelled. Only a failed
  schema validation at save time is.
- Route-level role middleware is not modelled; the handlers check only what
  their own code checks. For example `createQuiz`, `takeQuiz` and `submitQuiz` do not check the role.
- Dynamic request typing is not modelled. A questionIndex or selectedOption is
  an integer, so JavaScript's `===` between a string and a number does not
  arise. The `typeof correctAnswer === 'number'` test becomes `Some`/`None`. A
  non-integer or missing index in `splice` is not covered.
- The quiz's `targetYear`/`targetBranches` fields are in the record, and the
  store keeps `targetYear` within 1..4. No handler sets or reads them.
