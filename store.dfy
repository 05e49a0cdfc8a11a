/**
 * The in-memory store standing for the database collections the controllers use:
 * quizzes by id, submissions in creation order, and users.
 */
module Store {
  import opened Responses
  import opened Models

  /** The authenticated caller: the id and role carried by the session token. */
  datatype Caller = Caller(id: Id, role: Role)

  /** A record of one "quiz published" mail: which quiz, and to whom. */
  datatype Notification = Notification(quizId: Id, title: string, recipients: seq<string>)

  /** Every field of the store at one moment, for "nothing else changed" clauses. */
  datatype State = State(
    quizzes: map<Id, Quiz>,
    submissions: seq<Submission>,
    users: seq<User>,
    nextId: nat,
    notifications: seq<Notification>)

  class Database {
    var quizzes: map<Id, Quiz>
    var submissions: seq<Submission>
    var users: seq<User>
    /** Every id handed out so far is below `nextId`. */
    var nextId: nat
    /** One notification recorded on each move into published, even with no recipients (mail delivery is outside the model). */
    ghost var notifications: seq<Notification>
    /** The password hash used by the user pre-save hook; bcrypt is not modelled. */
    const hash: string -> string

    /** The schema constraints hold for every stored document, and ids and emails are unique. */
    ghost predicate Valid()
      reads this
    {
      (forall id :: id in quizzes ==> id < nextId && ValidQuiz(quizzes[id])) &&
      (forall k :: 0 <= k < |submissions| ==> submissions[k].quizId < nextId) &&
      (forall i :: 0 <= i < |users| ==> users[i].id < nextId && ValidUser(users[i])) &&
      (forall i, j :: 0 <= i < j < |users| ==> users[i].id != users[j].id) &&
      UniqueEmails(users)
    }

    ghost function Snapshot(): State
      reads this
    {
      State(quizzes, submissions, users, nextId, notifications)
    }

    constructor (hash: string -> string)
      ensures Valid() && this.hash == hash
      ensures quizzes == map[] && submissions == [] && users == [] && notifications == []
    {
      this.hash := hash;
      quizzes := map[];
      submissions := [];
      users := [];
      nextId := 0;
      notifications := [];
    }
  }
}
