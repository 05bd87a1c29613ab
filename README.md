# Classroom portal: record bookkeeping and session gate

This project models the bookkeeping core of a small classroom web portal
(`new_proto/app.py`). Administrators upload lectures and assignments and
grade submissions. Students submit work. Everyone signs up and logs in
against a users collection. The four collections (users, lectures,
assignments, submissions) are held as Dafny sequences of record datatypes,
standing for the contents of their JSON files. One client's session is an
`Option<Identity>`: `None` while anonymous, otherwise the user id, email,
name and role copied from the user record at login.

Modules:

- `Wrappers` (`wrappers.dfy`): the `Option` datatype.
- `Collections` (`collections.dfy`): identifier assignment (`NextId`, the
  `get_next_id` helper, generic over the id key), the first-match lookup
  (`FirstIndex`, Python's `next(generator, None)`), and identifier uniqueness.
- `Records` (`records.dfy`): the User, Lecture, Assignment and Submission
  records, the session identity, the role and grade constants, and the
  invariants "distinct emails" and "one submission per (assignment, student)".
- `Queries` (`queries.dfy`): the read-only scans the routes perform, with
  lemmas relating them to the updates (signup then login, submit then
  duplicate check, grade then lookup).
- `Routes` (`portal.dfy`): class `Portal`, whose fields are the four
  collections and the session, with one method per route. A redirect or an
  error flash is `Rejected(reason)`, and the contract states that nothing
  changed. Every appending method also states that it keeps identifiers
  unique, and the submission methods keep "one submission per pair".
- `Scenarios` (`scenarios.dfy`): client runs proved from the contracts
  alone. Ids 1 then 2 for two signups into an empty collection. A grade
  that changes one field. A user whose role is "Teacher".

Behaviour of the code that the model keeps, where one might expect
otherwise:

- The role is a free string from the signup form. The admin routes accept
  exactly "Admin" and the submit route accepts exactly "Student". The
  dashboard shows the student view to every role other than "Admin", so a
  "Teacher" sees the student dashboard but cannot submit. The admin's
  student list shows only users whose role is exactly "Student".
- Posting to the login route while a session exists changes nothing.
- Signup does not look at the session at all.
- An upload form without a file leaves the collection unchanged and just
  shows the page again. The model reports this as `Rejected(NoFile)`.
- Any logged-in user, of any role, may fetch any stored file by name.

## Model

| member | source | states |
|---|---|---|
| `Collections.MaxKey` | new_proto/app.py:47 | the result is at least every record's id and is the id of some record |
| `Collections.NextId` | new_proto/app.py:43-47 | 1 for an empty collection; otherwise one more than an id present and greater than every id present, so never already taken |
| `Collections.NextIdAfterAppend` | new_proto/app.py:43-47 | after appending the record that took the next id, the next id is exactly one larger (ids grow by one per append) |
| `Collections.AppendNextIdKeepsUnique` | new_proto/app.py:43-47 | appending a record that carries the next id keeps all ids of the collection distinct |
| `Collections.FirstIndex` | new_proto/app.py:72 | None exactly when no element matches; otherwise the index of a matching element with no match before it |
| `Collections.FirstIndexAfterUpdate` | new_proto/app.py:222-225 | overwriting an element by one the predicate judges the same way leaves the first match where it was |
| `Queries.Authenticate` | new_proto/app.py:71-72 | a user is found iff some user has exactly that email and password, and the one found is the first such user |
| `Queries.SubmissionIndex` | new_proto/app.py:222 | None iff no submission has the id; otherwise the position of the first submission with that id |
| `Queries.StudentName` | new_proto/app.py:209-210 | the name of the first user whose id is the submitter's; "Unknown" when no user has that id |
| `Queries.Students` | new_proto/app.py:130 | a user is listed iff it is in the users collection with role exactly "Student"; the list is no longer than the collection |
| `Queries.StudentsAppend` | new_proto/app.py:130 | the student list of two collections joined is the two student lists joined, so the filter keeps order and repeats |
| `Queries.StudentsOne` | new_proto/app.py:130 | a one-user collection lists that user exactly when its role is "Student" |
| `Queries.EmailTaken` | new_proto/app.py:95 | true iff some user has exactly that email |
| `Queries.HasSubmitted` | new_proto/app.py:247 | true iff some submission has that assignment id and that submitter |
| `Queries.SignupThenAuthenticate` | new_proto/app.py:94-107 | after a signup with an email nobody had, logging in with that email and password finds exactly the new user |
| `Queries.SubmitThenHasSubmitted` | new_proto/app.py:247-262 | once a submission is appended, the duplicate check for its (assignment, student) pair holds, so a second submit is refused |
| `Queries.GradeThenFind` | new_proto/app.py:222-225 | changing the grade of a submission does not change which record the lookup by its id finds |
| `Queries.AppendNewEmailKeepsDistinct` | new_proto/app.py:95-107 | appending a user whose email was not taken keeps emails distinct |
| `Queries.AppendNewPairKeepsOnePerPair` | new_proto/app.py:247-262 | appending a submission for a pair without one keeps at most one submission per pair |
| `Routes.Portal.constructor` | new_proto/app.py:25-33 | the collections are the sequences their files hold (reading the files is not modelled) and the session starts anonymous |
| `Routes.Portal.Login` | new_proto/app.py:63-84 | an existing session is left as it is; otherwise the session becomes the first user with matching email and password, or stays anonymous and the login is refused |
| `Routes.Portal.Signup` | new_proto/app.py:87-111 | a taken email leaves users unchanged; otherwise exactly one user with the next user id is appended; unique ids and distinct emails are kept |
| `Routes.Portal.Logout` | new_proto/app.py:116-120 | the session is anonymous afterwards, and nothing else changes |
| `Routes.Portal.ShowDashboard` | new_proto/app.py:125-136 | no session redirects; role "Admin" sees the users with role "Student"; every other role sees the lectures and assignments |
| `Routes.Portal.ShowLectures` | new_proto/app.py:141-172 | no session or a role other than "Admin" redirects; an admin sees the lectures |
| `Routes.Portal.UploadLecture` | new_proto/app.py:141-169 | only an admin with a chosen file changes lectures, by appending one lecture with the next lecture id, the admin's id and an empty accessed-by list; ids stay unique |
| `Routes.Portal.UploadAssignment` | new_proto/app.py:174-201 | only an admin with a chosen file changes assignments, by appending one assignment with the next assignment id and the admin's id; ids stay unique |
| `Routes.Portal.ShowAssignments` | new_proto/app.py:203-212 | for an admin, every submission in stored order, each paired with its submitter's name or "Unknown"; count and order unchanged; others are redirected |
| `Routes.Portal.Grade` | new_proto/app.py:214-231 | without an admin session or for an unknown id nothing changes; otherwise only the grade of the first submission with that id changes; every other field of every record is kept |
| `Routes.Portal.Submit` | new_proto/app.py:236-268 | only the role "Student", with a chosen file and no earlier submission for the pair, appends one submission with the next id, that pair and grade "Not Graded"; one submission per pair and unique ids are kept |
| `Routes.Portal.Download` | new_proto/app.py:273-276 | a file is served iff a session exists, whatever its role |

## Left out

- Reading and writing the JSON files (`load_data`, `save_data`) is not modelled. Each collection is the sequence its file holds. The fallback to an empty list for a missing or unparsable file, and a save error that is only printed, are file I/O outside the model.
- The filename sanitiser from the web framework is foreign code. Its result is the opaque parameter `storedName`. Writing uploaded files to the upload folder and serving them back are filesystem effects and are not modelled.
- Timestamps come from the clock. They are the opaque parameters `joinDate`, `uploadDate` and `submitDate`.
- Flask routing, page rendering, flash messages, the secret key and the upload-folder setup are web plumbing. A redirect is modelled as a rejection with no state change. The GET forms of the login and signup pages only render a page.
- The student dashboard also loads `notes.json`. No route writes that file, so it is not part of this model.
- A session ended by the web runtime behaves like `Logout`. Several clients with their own sessions are not modelled: a `Portal` holds one session.
- Two requests that both compute the next id before either saves get the same id. This race is concurrency and lies outside a sequential model.
- Records are typed and ids are integers. A JSON record with a missing key or a non-numeric id makes the code raise; a float or boolean id is used as a number. Neither case is modelled, and neither is a form without the expected field.
- Routes.Portal.ShowAssignments: the code writes `student_name` into each freshly loaded submission and never saves it. The model builds a new sequence of rows instead, so the in-place write is not captured.
- Routes.Portal.UploadLecture: the code saves the uploaded file before it writes the record. If that save raises (for instance when the sanitised name is empty and the target is the upload folder itself), the route aborts and nothing is appended. The model assumes the save succeeds.
- Routes.Portal.UploadAssignment: the same file save precedes the append, and a save that raises leaves assignments unchanged. The model assumes the save succeeds.
- Routes.Portal.Submit: the same file save comes after the duplicate check and before the append, and a save that raises leaves submissions unchanged. The model assumes the save succeeds.
