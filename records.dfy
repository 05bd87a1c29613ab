/**
 * The records kept in the four collections (users, lectures, assignments,
 * submissions), the identity a session holds, and the invariants the
 * routes are meant to keep over the collections.
 */
module Records {
  /** A role is a free string taken from the signup form; only these two values are ever tested. */
  const Admin: string := "Admin"
  const Student: string := "Student"
  /** The grade of a submission nobody has graded yet. */
  const NotGraded: string := "Not Graded"
  /** The name shown for a submission whose submitter is not in the users collection. */
  const Unknown: string := "Unknown"

  datatype User = User(userId: int, name: string, email: string, password: string, role: string, joinDate: string)

  datatype Lecture = Lecture(
    lectureId: int, title: string, description: string, filePath: string,
    uploadedBy: int, uploadDate: string, accessedBy: seq<int>)

  datatype Assignment = Assignment(
    assignmentId: int, title: string, description: string, filePath: string,
    uploadedBy: int, uploadDate: string)

  datatype Submission = Submission(
    submissionId: int, assignmentId: int, submittedBy: int, filePath: string,
    submitDate: string, grade: string)

  /** What a logged-in session holds: the user's id, email, name and role. */
  datatype Identity = Identity(userId: int, email: string, name: string, role: string)

  /** A submission as the assignments page shows it, with its submitter's name added. */
  datatype SubmissionRow = SubmissionRow(submission: Submission, studentName: string)

  // The `id_key` of each collection, as a function for `NextId` and `UniqueKeys`.
  function UserKey(u: User): int { u.userId }
  function LectureKey(l: Lecture): int { l.lectureId }
  function AssignmentKey(a: Assignment): int { a.assignmentId }
  function SubmissionKey(s: Submission): int { s.submissionId }

  /** No two users share an email address. */
  predicate DistinctEmails(users: seq<User>)
  {
    forall i, j :: 0 <= i < j < |users| ==> users[i].email != users[j].email
  }

  /** At most one submission per (assignment, submitter) pair. */
  predicate OnePerPair(subs: seq<Submission>)
  {
    forall i, j :: 0 <= i < j < |subs| ==>
      subs[i].assignmentId != subs[j].assignmentId || subs[i].submittedBy != subs[j].submittedBy
  }
}
