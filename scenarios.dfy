/**
 * Client runs of the routes that rely on nothing but their contracts:
 * identifiers handed out in order, a grade that changes one field, and a
 * role outside "Admin" and "Student".
 */
module Scenarios {
  import opened Wrappers
  import opened Records
  import opened Queries
  import opened Routes

  /** Two signups against an empty users collection get ids 1 and 2. */
  method SignupTwice()
  {
    var p := new Portal([], [], [], []);
    var o1 := p.Signup("Ann", "ann@x.com", "pw", Student, "t1");
    assert o1 == Done && p.users == [User(1, "Ann", "ann@x.com", "pw", Student, "t1")];
    var o2 := p.Signup("Bo", "bo@x.com", "pw2", Admin, "t2");
    assert !EmailTaken(p.users[..1], "bo@x.com");
    assert o2 == Done && p.users[1] == User(2, "Bo", "bo@x.com", "pw2", Admin, "t2");
    var o3 := p.Signup("Ann again", "ann@x.com", "other", Student, "t3");
    assert p.users[0].email == "ann@x.com";
    assert o3 == Rejected(EmailExists) && |p.users| == 2;
  }

  /** An admin grades submission 1 with "A"; nothing but its grade changes. */
  method GradeOne()
  {
    var root := User(7, "Root", "root@x.com", "pw", Admin, "t0");
    var sub := Submission(1, 5, 3, "sub_3_essay.pdf", "t1", NotGraded);
    var p := new Portal([root], [], [], [sub]);
    var o := p.Grade(1, "A");
    assert o == Rejected(NotLoggedIn) && p.submissions == [sub];
    o := p.Login("root@x.com", "pw");
    assert HasCredentials(p.users[0], "root@x.com", "pw");
    assert o == Done && p.session == Some(Identity(7, "root@x.com", "Root", Admin));
    o := p.Grade(1, "A");
    assert p.submissions[0].submissionId == 1;
    assert o == Done && p.submissions == [Submission(1, 5, 3, "sub_3_essay.pdf", "t1", "A")];
    p.Logout();
    o := p.Grade(1, "B");
    assert o == Rejected(NotLoggedIn) && p.submissions[0].grade == "A";
  }

  /**
   * A user who signed up with the role "Teacher" gets the student dashboard
   * but may not submit, and a student may submit once per assignment.
   */
  method OtherRoles()
  {
    var t := User(1, "Tess", "t@x.com", "pw", "Teacher", "t0");
    var s := User(2, "Sam", "s@x.com", "pw", Student, "t0");
    var p := new Portal([t, s], [], [], []);
    var o := p.Login("t@x.com", "pw");
    assert HasCredentials(p.users[0], "t@x.com", "pw");
    assert o == Done;
    var v := p.ShowDashboard();
    assert v == Shown(StudentHome([], []));
    o := p.Submit(4, "essay.pdf", "sub_1_essay.pdf", "t1");
    assert o == Rejected(WrongRole) && p.submissions == [];
    p.Logout();
    o := p.Login("s@x.com", "pw");
    assert !HasCredentials(p.users[0], "s@x.com", "pw");
    assert HasCredentials(p.users[1], "s@x.com", "pw");
    assert o == Done && p.session == Some(Identity(2, "s@x.com", "Sam", Student));
    o := p.Submit(4, "essay.pdf", "sub_2_essay.pdf", "t2");
    assert o == Done && |p.submissions| == 1 && p.submissions[0].submissionId == 1;
    SubmitThenHasSubmitted([], p.submissions[0]);
    o := p.Submit(4, "essay2.pdf", "sub_2_essay2.pdf", "t3");
    assert o == Rejected(AlreadySubmitted) && |p.submissions| == 1;
  }
}
