/**
 * The read-only scans the routes run over the loaded collections: the
 * credential lookup of the login route, the duplicate checks of signup and
 * submit, the submitter-name lookup of the assignments page, the student
 * list of the admin dashboard and the submission lookup of grading.
 */
module Queries {
  import opened Wrappers
  import opened Collections
  import opened Records

  predicate HasCredentials(u: User, email: string, password: string)
  {
    u.email == email && u.password == password
  }

  /**
   * The login lookup: the first user whose email and password both match
   * exactly, or None when no user matches.
   */
  function Authenticate(users: seq<User>, email: string, password: string): (r: Option<User>)
    ensures r.Some? <==> exists i :: 0 <= i < |users| && HasCredentials(users[i], email, password)
    ensures r.Some? ==> exists i :: 0 <= i < |users| && users[i] == r.value &&
                          HasCredentials(users[i], email, password) &&
                          forall j :: 0 <= j < i ==> !HasCredentials(users[j], email, password)
  {
    match FirstIndex(users, (u: User) => HasCredentials(u, email, password))
    case None => None
    case Some(i) => Some(users[i])
  }

  /** Signup's duplicate check, a scan for a user with exactly this email (case-sensitive). */
  function EmailTaken(users: seq<User>, email: string): (b: bool)
    ensures b <==> exists i :: 0 <= i < |users| && users[i].email == email
  {
    FirstIndex(users, (u: User) => u.email == email).Some?
  }

  /** Submit's duplicate check, a scan for a submission by this student for this assignment. */
  function HasSubmitted(subs: seq<Submission>, assignmentId: int, userId: int): (b: bool)
    ensures b <==> exists i :: 0 <= i < |subs| && subs[i].assignmentId == assignmentId && subs[i].submittedBy == userId
  {
    FirstIndex(subs, (s: Submission) => s.assignmentId == assignmentId && s.submittedBy == userId).Some?
  }

  /** The position of the first submission with the given id, if any. */
  function SubmissionIndex(subs: seq<Submission>, submissionId: int): (r: Option<nat>)
    ensures r.None? <==> forall i :: 0 <= i < |subs| ==> subs[i].submissionId != submissionId
    ensures r.Some? ==> r.value < |subs| && subs[r.value].submissionId == submissionId &&
                        forall j :: 0 <= j < r.value ==> subs[j].submissionId != submissionId
  {
    FirstIndex(subs, (s: Submission) => s.submissionId == submissionId)
  }

  /**
   * The name shown beside a submission: the name of the first user with
   * the submitter's id, or "Unknown" when there is none.
   */
  function StudentName(users: seq<User>, userId: int): (name: string)
    ensures (forall i :: 0 <= i < |users| ==> users[i].userId != userId) ==> name == Unknown
    ensures forall i :: (0 <= i < |users| && users[i].userId == userId &&
                         (forall j :: 0 <= j < i ==> users[j].userId != userId)) ==> name == users[i].name
  {
    match FirstIndex(users, (u: User) => u.userId == userId)
    case None => Unknown
    case Some(i) => users[i].name
  }

  /** The admin dashboard's student list: the users whose role is exactly "Student", in order. */
  function Students(users: seq<User>): (r: seq<User>)
    ensures forall u :: u in r <==> u in users && u.role == Student
    ensures |r| <= |users|
    decreases |users|
  {
    if |users| == 0 then []
    else (if users[0].role == Student then [users[0]] else []) + Students(users[1..])
  }

  /** The student list of a concatenation is the concatenation of the student lists: order and repeats are kept. */
  lemma {:induction false} StudentsAppend(a: seq<User>, b: seq<User>)
    ensures Students(a + b) == Students(a) + Students(b)
    decreases |a|
  {
    if |a| == 0 {
      assert a + b == b;
    } else {
      assert (a + b)[0] == a[0];
      assert (a + b)[1..] == a[1..] + b;
      StudentsAppend(a[1..], b);
    }
  }

  /** A single user is listed exactly when its role is "Student"; with `StudentsAppend` this fixes the whole list. */
  lemma StudentsOne(u: User)
    ensures Students([u]) == if u.role == Student then [u] else []
  {
  }

  /** A user who has just signed up with a fresh email is the one that email and password log in as. */
  lemma SignupThenAuthenticate(users: seq<User>, u: User)
    requires !EmailTaken(users, u.email)
    ensures Authenticate(users + [u], u.email, u.password) == Some(u)
  {
    var s := users + [u];
    assert HasCredentials(s[|users|], u.email, u.password);
    assert forall k :: 0 <= k < |users| ==> s[k] == users[k];
  }

  /** Once a submission for a pair is stored, a second submission for that pair is caught. */
  lemma SubmitThenHasSubmitted(subs: seq<Submission>, s: Submission)
    ensures HasSubmitted(subs + [s], s.assignmentId, s.submittedBy)
  {
    assert (subs + [s])[|subs|] == s;
  }

  /**
   * Grading finds the same record again afterwards, now carrying the new
   * grade: changing a grade never moves the first match for an id.
   */
  lemma GradeThenFind(subs: seq<Submission>, i: nat, grade: string)
    requires i < |subs|
    ensures SubmissionIndex(subs[i := subs[i].(grade := grade)], subs[i].submissionId) ==
            SubmissionIndex(subs, subs[i].submissionId)
  {
    var id := subs[i].submissionId;
    FirstIndexAfterUpdate(subs, i, subs[i].(grade := grade), (s: Submission) => s.submissionId == id);
  }

  /** Appending a user whose email was not taken keeps emails distinct. */
  lemma AppendNewEmailKeepsDistinct(users: seq<User>, u: User)
    requires DistinctEmails(users)
    requires !EmailTaken(users, u.email)
    ensures DistinctEmails(users + [u])
  {
    var s := users + [u];
    forall i, j | 0 <= i < j < |s|
      ensures s[i].email != s[j].email
    {
      assert s[i] == users[i];
    }
  }

  /** Appending a submission for a pair that has none keeps at most one submission per pair. */
  lemma AppendNewPairKeepsOnePerPair(subs: seq<Submission>, s: Submission)
    requires OnePerPair(subs)
    requires !HasSubmitted(subs, s.assignmentId, s.submittedBy)
    ensures OnePerPair(subs + [s])
  {
    var t := subs + [s];
    forall i, j | 0 <= i < j < |t|
      ensures t[i].assignmentId != t[j].assignmentId || t[i].submittedBy != t[j].submittedBy
    {
      assert t[i] == subs[i];
    }
  }
}
