/**
 * The web application's routes as methods on one object that holds the
 * four collections (as they stand in their JSON files) and one client's
 * session. A redirect or an error flash becomes `Rejected(reason)` with
 * the collections and the session left as they were.
 */
module Routes {
  import opened Wrappers
  import opened Collections
  import opened Records
  import opened Queries

  /** Why a route turned a request away. */
  datatype Reason =
    | NotLoggedIn        // `login_required`: no session
    | WrongRole          // the role check at the top of an admin or student route
    | AlreadyLoggedIn    // the login route with a session already present
    | BadCredentials     // "Invalid email or password."
    | EmailExists        // "An account with this email already exists."
    | NoFile             // no file selected in an upload form
    | AlreadySubmitted   // "You have already submitted this assignment."
    | NoSuchSubmission   // "Submission not found."

  /** The effect of a state-changing route. */
  datatype Outcome = Done | Rejected(reason: Reason)

  /** The effect of a page-showing route: the page's data, or a redirect. */
  datatype View<+T> = Shown(page: T) | Redirected(reason: Reason)

  /** The dashboard an admin sees (the students) or anyone else sees (lectures and assignments). */
  datatype DashboardPage =
    | AdminHome(students: seq<User>)
    | StudentHome(lectures: seq<Lecture>, assignments: seq<Assignment>)

  /** The admin assignments page: the assignments and every submission with its submitter's name. */
  datatype AssignmentsPage = AssignmentsPage(assignments: seq<Assignment>, rows: seq<SubmissionRow>)

  /** The session belongs to a logged-in user whose role is exactly `role`. */
  predicate HasRole(session: Option<Identity>, role: string)
  {
    session.Some? && session.value.role == role
  }

  class Portal {
    var users: seq<User>
    var lectures: seq<Lecture>
    var assignments: seq<Assignment>
    var submissions: seq<Submission>
    /** The client's session: None while anonymous. */
    var session: Option<Identity>

    /** A fresh client (anonymous session) against collections as currently stored. */
    constructor (users: seq<User>, lectures: seq<Lecture>, assignments: seq<Assignment>, submissions: seq<Submission>)
      ensures this.users == users && this.lectures == lectures
      ensures this.assignments == assignments && this.submissions == submissions
      ensures session == None
    {
      this.users := users;
      this.lectures := lectures;
      this.assignments := assignments;
      this.submissions := submissions;
      session := None;
    }

    /**
     * POST to the login route. An existing session short-circuits to the
     * dashboard; otherwise the first user with exactly this email and
     * password is written into the session.
     */
    method Login(email: string, password: string) returns (out: Outcome)
      modifies this`session
      ensures old(session).Some? ==> out == Rejected(AlreadyLoggedIn) && session == old(session)
      ensures old(session).None? && Authenticate(users, email, password).None? ==>
                out == Rejected(BadCredentials) && session == None
      ensures old(session).None? && Authenticate(users, email, password).Some? ==>
                var u := Authenticate(users, email, password).value;
                out == Done && session == Some(Identity(u.userId, u.email, u.name, u.role))
    {
      if session.Some? {
        return Rejected(AlreadyLoggedIn);
      }
      match Authenticate(users, email, password)
      case None =>
        out := Rejected(BadCredentials);
      case Some(u) =>
        session := Some(Identity(u.userId, u.email, u.name, u.role));
        out := Done;
    }

    /**
     * POST to the signup route (open to anyone, logged in or not). A taken
     * email is refused; otherwise the new user gets the next user id.
     */
    method Signup(name: string, email: string, password: string, role: string, joinDate: string)
      returns (out: Outcome)
      modifies this`users
      ensures EmailTaken(old(users), email) ==> out == Rejected(EmailExists) && users == old(users)
      ensures !EmailTaken(old(users), email) ==>
                out == Done &&
                users == old(users) + [User(NextId(old(users), UserKey), name, email, password, role, joinDate)]
      ensures old(UniqueKeys(users, UserKey)) ==> UniqueKeys(users, UserKey)
      ensures old(DistinctEmails(users)) ==> DistinctEmails(users)
    {
      if EmailTaken(users, email) {
        return Rejected(EmailExists);
      }
      var u := User(NextId(users, UserKey), name, email, password, role, joinDate);
      if UniqueKeys(users, UserKey) {
        AppendNextIdKeepsUnique(users, u, UserKey);
      }
      if DistinctEmails(users) {
        AppendNewEmailKeepsDistinct(users, u);
      }
      users := users + [u];
      out := Done;
    }

    /** The logout route: the session is cleared, whatever it held. */
    method Logout()
      modifies this`session
      ensures session == None
    {
      session := None;
    }

    /**
     * The dashboard: an admin sees the users whose role is "Student"; every
     * other role, whatever its spelling, gets the student dashboard.
     */
    method ShowDashboard() returns (v: View<DashboardPage>)
      ensures session.None? ==> v == Redirected(NotLoggedIn)
      ensures HasRole(session, Admin) ==> v == Shown(AdminHome(Students(users)))
      ensures session.Some? && session.value.role != Admin ==> v == Shown(StudentHome(lectures, assignments))
    {
      if session.None? {
        return Redirected(NotLoggedIn);
      }
      if session.value.role == Admin {
        v := Shown(AdminHome(Students(users)));
      } else {
        v := Shown(StudentHome(lectures, assignments));
      }
    }

    /** GET on the admin lectures page. */
    method ShowLectures() returns (v: View<seq<Lecture>>)
      ensures session.None? ==> v == Redirected(NotLoggedIn)
      ensures session.Some? && session.value.role != Admin ==> v == Redirected(WrongRole)
      ensures HasRole(session, Admin) ==> v == Shown(lectures)
    {
      if session.None? {
        return Redirected(NotLoggedIn);
      }
      if session.value.role != Admin {
        return Redirected(WrongRole);
      }
      v := Shown(lectures);
    }

    /**
     * POST to the admin lectures page. `fileName` is the name the browser
     * sent (empty when no file was chosen); `storedName` is what the
     * filename sanitiser made of it; `uploadDate` is the current time.
     */
    method UploadLecture(title: string, description: string, fileName: string, storedName: string, uploadDate: string)
      returns (out: Outcome)
      modifies this`lectures
      ensures session.None? ==> out == Rejected(NotLoggedIn) && lectures == old(lectures)
      ensures session.Some? && session.value.role != Admin ==> out == Rejected(WrongRole) && lectures == old(lectures)
      ensures HasRole(session, Admin) && fileName == "" ==> out == Rejected(NoFile) && lectures == old(lectures)
      ensures HasRole(session, Admin) && fileName != "" ==>
                out == Done &&
                lectures == old(lectures) + [Lecture(NextId(old(lectures), LectureKey), title, description,
                                                     storedName, session.value.userId, uploadDate, [])]
      ensures old(UniqueKeys(lectures, LectureKey)) ==> UniqueKeys(lectures, LectureKey)
    {
      if session.None? {
        return Rejected(NotLoggedIn);
      }
      if session.value.role != Admin {
        return Rejected(WrongRole);
      }
      if fileName == "" {
        return Rejected(NoFile);
      }
      var l := Lecture(NextId(lectures, LectureKey), title, description, storedName, session.value.userId, uploadDate, []);
      if UniqueKeys(lectures, LectureKey) {
        AppendNextIdKeepsUnique(lectures, l, LectureKey);
      }
      lectures := lectures + [l];
      out := Done;
    }

    /** POST to the admin assignments page; the parameters are as for `UploadLecture`. */
    method UploadAssignment(title: string, description: string, fileName: string, storedName: string, uploadDate: string)
      returns (out: Outcome)
      modifies this`assignments
      ensures session.None? ==> out == Rejected(NotLoggedIn) && assignments == old(assignments)
      ensures session.Some? && session.value.role != Admin ==> out == Rejected(WrongRole) && assignments == old(assignments)
      ensures HasRole(session, Admin) && fileName == "" ==> out == Rejected(NoFile) && assignments == old(assignments)
      ensures HasRole(session, Admin) && fileName != "" ==>
                out == Done &&
                assignments == old(assignments) + [Assignment(NextId(old(assignments), AssignmentKey), title, description,
                                                              storedName, session.value.userId, uploadDate)]
      ensures old(UniqueKeys(assignments, AssignmentKey)) ==> UniqueKeys(assignments, AssignmentKey)
    {
      if session.None? {
        return Rejected(NotLoggedIn);
      }
      if session.value.role != Admin {
        return Rejected(WrongRole);
      }
      if fileName == "" {
        return Rejected(NoFile);
      }
      var a := Assignment(NextId(assignments, AssignmentKey), title, description, storedName, session.value.userId, uploadDate);
      if UniqueKeys(assignments, AssignmentKey) {
        AppendNextIdKeepsUnique(assignments, a, AssignmentKey);
      }
      assignments := assignments + [a];
      out := Done;
    }

    /**
     * GET on the admin assignments page: every submission, in stored order,
     * gets the name of the first user whose id is its submitter's, or
     * "Unknown".
     */
    method ShowAssignments() returns (v: View<AssignmentsPage>)
      ensures session.None? ==> v == Redirected(NotLoggedIn)
      ensures session.Some? && session.value.role != Admin ==> v == Redirected(WrongRole)
      ensures HasRole(session, Admin) ==> v.Shown? && v.page.assignments == assignments
      ensures HasRole(session, Admin) ==> v.Shown? && |v.page.rows| == |submissions|
      ensures HasRole(session, Admin) ==>
                v.Shown? &&
                forall k :: 0 <= k < |submissions| ==>
                  v.page.rows[k] == SubmissionRow(submissions[k], StudentName(users, submissions[k].submittedBy))
    {
      if session.None? {
        return Redirected(NotLoggedIn);
      }
      if session.value.role != Admin {
        return Redirected(WrongRole);
      }
      var rows: seq<SubmissionRow> := [];
      for k := 0 to |submissions|
        invariant |rows| == k
        invariant forall j :: 0 <= j < k ==>
                    rows[j] == SubmissionRow(submissions[j], StudentName(users, submissions[j].submittedBy))
      {
        var sub := submissions[k];
        rows := rows + [SubmissionRow(sub, StudentName(users, sub.submittedBy))];
      }
      v := Shown(AssignmentsPage(assignments, rows));
    }

    /**
     * POST to the grading route: only the `grade` of the first submission
     * with this id changes; an unknown id changes nothing.
     */
    method Grade(submissionId: int, grade: string) returns (out: Outcome)
      modifies this`submissions
      ensures session.None? ==> out == Rejected(NotLoggedIn) && submissions == old(submissions)
      ensures session.Some? && session.value.role != Admin ==> out == Rejected(WrongRole) && submissions == old(submissions)
      ensures HasRole(session, Admin) && SubmissionIndex(old(submissions), submissionId).None? ==>
                out == Rejected(NoSuchSubmission) && submissions == old(submissions)
      ensures HasRole(session, Admin) && SubmissionIndex(old(submissions), submissionId).Some? ==>
                var i := SubmissionIndex(old(submissions), submissionId).value;
                out == Done && submissions == old(submissions)[i := old(submissions)[i].(grade := grade)]
      ensures |submissions| == |old(submissions)|
      ensures forall k :: 0 <= k < |submissions| ==> submissions[k] == old(submissions)[k].(grade := submissions[k].grade)
      ensures old(OnePerPair(submissions)) ==> OnePerPair(submissions)
      ensures old(UniqueKeys(submissions, SubmissionKey)) ==> UniqueKeys(submissions, SubmissionKey)
    {
      if session.None? {
        return Rejected(NotLoggedIn);
      }
      if session.value.role != Admin {
        return Rejected(WrongRole);
      }
      match SubmissionIndex(submissions, submissionId)
      case None =>
        out := Rejected(NoSuchSubmission);
      case Some(i) =>
        submissions := submissions[i := submissions[i].(grade := grade)];
        out := Done;
    }

    /**
     * POST to the submit route. Only the role "Student" may submit, a file
     * must be chosen, and a student submits at most once per assignment; a
     * new submission gets the next submission id and grade "Not Graded".
     */
    method Submit(assignmentId: int, fileName: string, storedName: string, submitDate: string)
      returns (out: Outcome)
      modifies this`submissions
      ensures session.None? ==> out == Rejected(NotLoggedIn) && submissions == old(submissions)
      ensures session.Some? && session.value.role != Student ==> out == Rejected(WrongRole) && submissions == old(submissions)
      ensures HasRole(session, Student) && fileName == "" ==> out == Rejected(NoFile) && submissions == old(submissions)
      ensures HasRole(session, Student) && fileName != "" && HasSubmitted(old(submissions), assignmentId, session.value.userId) ==>
                out == Rejected(AlreadySubmitted) && submissions == old(submissions)
      ensures HasRole(session, Student) && fileName != "" && !HasSubmitted(old(submissions), assignmentId, session.value.userId) ==>
                out == Done &&
                submissions == old(submissions) + [Submission(NextId(old(submissions), SubmissionKey), assignmentId,
                                                              session.value.userId, storedName, submitDate, NotGraded)]
      ensures old(OnePerPair(submissions)) ==> OnePerPair(submissions)
      ensures old(UniqueKeys(submissions, SubmissionKey)) ==> UniqueKeys(submissions, SubmissionKey)
    {
      if session.None? {
        return Rejected(NotLoggedIn);
      }
      if session.value.role != Student {
        return Rejected(WrongRole);
      }
      if fileName == "" {
        return Rejected(NoFile);
      }
      var userId := session.value.userId;
      if HasSubmitted(submissions, assignmentId, userId) {
        return Rejected(AlreadySubmitted);
      }
      var s := Submission(NextId(submissions, SubmissionKey), assignmentId, userId, storedName, submitDate, NotGraded);
      if UniqueKeys(submissions, SubmissionKey) {
        AppendNextIdKeepsUnique(submissions, s, SubmissionKey);
      }
      if OnePerPair(submissions) {
        AppendNewPairKeepsOnePerPair(submissions, s);
      }
      submissions := submissions + [s];
      out := Done;
    }

    /** The file-serving route: any logged-in user, of any role, may fetch any stored file by name. */
    method Download(fileName: string) returns (v: View<string>)
      ensures v.Shown? <==> session.Some?
      ensures v.Shown? ==> v.page == fileName
      ensures v.Redirected? ==> v.reason == NotLoggedIn
    {
      if session.None? {
        return Redirected(NotLoggedIn);
      }
      v := Shown(fileName);
    }
  }
}
