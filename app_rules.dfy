/** The rules of the application shell and its pages (App.tsx) that decide
    something: the name search, the student toggle and the empty-selection
    guard of the log form, the tab a portal path highlights, the attendance
    list, and the role-gated portal routes with login and logout. */
module AppRules {
  import opened Types
  import opened Sequences
  import opened Text
  import opened MockDatabase

  // ---------------------------------------------------------------------
  // Name search
  // ---------------------------------------------------------------------

  /** `name.toLowerCase().includes(term.toLowerCase())`. */
  predicate NameMatches(name: string, term: string) {
    Includes(Lower(name), Lower(term))
  }

  function UserNameMatches(term: string): User -> bool { (u: User) => NameMatches(u.Name(), term) }
  function StudentNameMatches(term: string): Student -> bool { (s: Student) => NameMatches(s.name, term) }

  /** The chat contact search: the contacts whose name contains the term,
      ignoring ASCII case, in list order. */
  function SearchUsers(users: seq<User>, term: string): (r: seq<User>)
    ensures forall u :: u in r <==> u in users && NameMatches(u.Name(), term)
    ensures forall u :: multiset(r)[u] == if NameMatches(u.Name(), term) then multiset(users)[u] else 0
    ensures Subsequence(r, users)
  {
    FilterMultiset(users, UserNameMatches(term));
    Filter(users, UserNameMatches(term))
  }

  /** The teacher's student list search, over student records. */
  function SearchStudents(students: seq<Student>, term: string): (r: seq<Student>)
    ensures forall s :: s in r <==> s in students && NameMatches(s.name, term)
    ensures forall s :: multiset(r)[s] == if NameMatches(s.name, term) then multiset(students)[s] else 0
    ensures Subsequence(r, students)
  {
    FilterMultiset(students, StudentNameMatches(term));
    Filter(students, StudentNameMatches(term))
  }

  /** Every name contains the empty term. */
  lemma EmptyTermMatches(name: string)
    ensures NameMatches(name, "")
  {
    assert Lower("") == "";
    IncludesEmpty(Lower(name));
  }

  /** An empty search box shows every contact. */
  lemma EmptySearchKeepsAllUsers(users: seq<User>)
    ensures SearchUsers(users, "") == users
  {
    forall i | 0 <= i < |users| ensures UserNameMatches("")(users[i]) {
      EmptyTermMatches(users[i].Name());
    }
    FilterKeepsAll(users, UserNameMatches(""));
  }

  /** An empty search box shows every student. */
  lemma EmptySearchKeepsAllStudents(students: seq<Student>)
    ensures SearchStudents(students, "") == students
  {
    forall i | 0 <= i < |students| ensures StudentNameMatches("")(students[i]) {
      EmptyTermMatches(students[i].name);
    }
    FilterKeepsAll(students, StudentNameMatches(""));
  }

  /** The search ignores the case of the term: typing it in capitals finds
      the same students. */
  lemma SearchIgnoresTermCase(students: seq<Student>, term: string)
    ensures SearchStudents(students, Lower(term)) == SearchStudents(students, term)
  {
    LowerIdempotent(term);
    FilterCongruent(students, StudentNameMatches(Lower(term)), StudentNameMatches(term));
  }

  // ---------------------------------------------------------------------
  // The log form: student toggle and submission guard
  // ---------------------------------------------------------------------

  function Other(id: string): string -> bool { (s: string) => s != id }

  /** No id occurs twice. */
  ghost predicate Distinct(ids: seq<string>) {
    forall x :: multiset(ids)[x] <= 1
  }

  /** `toggleStudent`: a selected id is removed (every occurrence of it),
      an unselected one is appended; the other ids keep their order and
      multiplicity. */
  function ToggleStudent(selected: seq<string>, id: string): (r: seq<string>)
    ensures id in r <==> id !in selected
    ensures forall x :: x != id ==> (x in r <==> x in selected)
    ensures id !in selected ==> r == selected + [id]
    ensures id in selected ==> multiset(r) == multiset(selected)[id := 0] && Subsequence(r, selected)
  {
    if id in selected then
      FilterMultiset(selected, Other(id));
      Filter(selected, Other(id))
    else
      selected + [id]
  }

  /** A duplicate-free selection stays duplicate-free. */
  lemma ToggleKeepsDistinct(selected: seq<string>, id: string)
    requires Distinct(selected)
    ensures Distinct(ToggleStudent(selected, id))
  {
    var r := ToggleStudent(selected, id);
    if id !in selected {
      forall x ensures multiset(r)[x] <= 1 {
        assert multiset(r)[x] == multiset(selected)[x] + multiset([id])[x];
      }
    }
  }

  /** Toggling the same id twice restores membership, and restores the
      selection itself when the id was not selected. */
  lemma ToggleTwice(selected: seq<string>, id: string)
    ensures forall x :: x in ToggleStudent(ToggleStudent(selected, id), id) <==> x in selected
    ensures id !in selected ==> ToggleStudent(ToggleStudent(selected, id), id) == selected
  {
    if id !in selected {
      FilterAppend(selected, [id], Other(id));
      FilterCons(id, [], Other(id));
      FilterKeepsAll(selected, Other(id));
      assert selected + [] == selected;
    }
  }

  /** The fields of the log form (everything but the selection). */
  datatype LogForm = LogForm(
    activityTitle: string,
    activityDescription: string,
    homework: string,
    entryTime: string,
    exitTime: string,
    date: string,
    mediaUrls: seq<string>)

  /** `{...form, studentIds: selectedStudents}`: the form's fields, the
      selection, and no teacher note. */
  function DraftOf(form: LogForm, selected: seq<string>): (d: LogDraft)
    ensures d.studentIds == selected && d.teacherNote.None?
    ensures d.date == form.date && d.activityTitle == form.activityTitle
    ensures d.entryTime == form.entryTime && d.exitTime == form.exitTime
    ensures d.activityDescription == form.activityDescription && d.homework == form.homework
    ensures d.mediaUrls == form.mediaUrls
  {
    LogDraft(selected, form.date, form.entryTime, form.exitTime, form.activityTitle,
             form.activityDescription, form.homework, form.mediaUrls, None)
  }

  /** The log form's `handleSubmit`: with no student selected nothing is
      stored; otherwise exactly one log naming the selection goes to the
      front of the store. */
  method SubmitLog(db: Database, selected: seq<string>, form: LogForm, now: nat) returns (created: Option<DailyLog>)
    modifies db`logs
    ensures |selected| == 0 ==> created.None? && db.logs == old(db.logs)
    ensures |selected| > 0 ==>
      && created == Some(DraftOf(form, selected).WithId(LogId(now)))
      && db.logs == [created.value] + old(db.logs)
  {
    if |selected| == 0 {
      return None;
    }
    var log := db.AddLog(DraftOf(form, selected), now);
    created := Some(log);
  }

  // ---------------------------------------------------------------------
  // The highlighted portal tab
  // ---------------------------------------------------------------------

  /** A tab and the path fragments that select it. */
  datatype TabRule = TabRule(fragments: seq<string>, tab: string)

  /** The fragments in priority order; profile paths name the tab of the
      portal's role. */
  function TabRules(role: UserRole): seq<TabRule> {
    [ TabRule(["/teacher-home"], "teacher-home"),
      TabRule(["/students", "/messages"], "students"),
      TabRule(["/add-log"], "add-log"),
      TabRule(["/profile", "/teacher-profile"], if role == ParentRole then "profile" else "teacher-profile"),
      TabRule(["/syllabus"], "syllabus"),
      TabRule(["/logs"], "logs") ]
  }

  /** Some fragment occurs in the path. */
  predicate AnyIncluded(path: string, fragments: seq<string>)
    decreases |fragments|
  {
    fragments != [] && (Includes(path, fragments[0]) || AnyIncluded(path, fragments[1..]))
  }

  predicate Selects(rule: TabRule, path: string) {
    AnyIncluded(path, rule.fragments)
  }

  /** The tab of the first rule with a fragment in the path. */
  function FirstMatchingTab(rules: seq<TabRule>, path: string): (r: Option<string>)
    ensures r.None? <==> forall k :: 0 <= k < |rules| ==> !Selects(rules[k], path)
    ensures r.Some? ==> exists k :: 0 <= k < |rules| && Selects(rules[k], path) && r.value == rules[k].tab
                                   && forall j :: 0 <= j < k ==> !Selects(rules[j], path)
    decreases |rules|
  {
    if rules == [] then None
    else if Selects(rules[0], path) then Some(rules[0].tab)
    else
      var r := FirstMatchingTab(rules[1..], path);
      if r.Some? then
        var k :| 0 <= k < |rules[1..]| && Selects(rules[1..][k], path) && r.value == rules[1..][k].tab
                 && forall j :: 0 <= j < k ==> !Selects(rules[1..][j], path);
        assert Selects(rules[k + 1], path) && r.value == rules[k + 1].tab;
        r
      else
        r
  }

  /** The tab a portal path highlights: the first rule that matches, or the
      dashboard. */
  function TabFor(path: string, role: UserRole): string {
    FirstMatchingTab(TabRules(role), path).GetOr("dashboard")
  }

  lemma AnyIncludedOne(path: string, a: string)
    ensures AnyIncluded(path, [a]) == Includes(path, a)
  {
    assert [a][1..] == [];
  }

  lemma AnyIncludedTwo(path: string, a: string, b: string)
    ensures AnyIncluded(path, [a, b]) == (Includes(path, a) || Includes(path, b))
  {
    assert [a, b][1..] == [b];
    AnyIncludedOne(path, b);
  }

  lemma FirstMatchingTabStep(rules: seq<TabRule>, path: string)
    requires rules != []
    ensures FirstMatchingTab(rules, path) ==
      if Selects(rules[0], path) then Some(rules[0].tab) else FirstMatchingTab(rules[1..], path)
  {
  }

  /** The rule table read as the component's if-chain. */
  lemma TabForAsChain(path: string, role: UserRole)
    ensures TabFor(path, role) ==
      if Includes(path, "/teacher-home") then "teacher-home"
      else if Includes(path, "/students") || Includes(path, "/messages") then "students"
      else if Includes(path, "/add-log") then "add-log"
      else if Includes(path, "/profile") || Includes(path, "/teacher-profile") then
        (if role == ParentRole then "profile" else "teacher-profile")
      else if Includes(path, "/syllabus") then "syllabus"
      else if Includes(path, "/logs") then "logs"
      else "dashboard"
  {
    var r0 := TabRules(role);
    var r1, r2, r3 := r0[1..], r0[2..], r0[3..];
    var r4, r5, r6 := r0[4..], r0[5..], r0[6..];
    assert r1 == r0[1..] && r2 == r1[1..] && r3 == r2[1..];
    assert r4 == r3[1..] && r5 == r4[1..] && r6 == r5[1..] && r6 == [];
    AnyIncludedOne(path, "/teacher-home");
    AnyIncludedTwo(path, "/students", "/messages");
    AnyIncludedOne(path, "/add-log");
    AnyIncludedTwo(path, "/profile", "/teacher-profile");
    AnyIncludedOne(path, "/syllabus");
    AnyIncludedOne(path, "/logs");
    FirstMatchingTabStep(r0, path);
    FirstMatchingTabStep(r1, path);
    FirstMatchingTabStep(r2, path);
    FirstMatchingTabStep(r3, path);
    FirstMatchingTabStep(r4, path);
    FirstMatchingTabStep(r5, path);
  }

  /** `PortalLayout`'s `activeTab`, reassigned along the if-chain. */
  method ActiveTab(path: string, role: UserRole) returns (tab: string)
    ensures tab == TabFor(path, role)
  {
    TabForAsChain(path, role);
    tab := "dashboard";
    if Includes(path, "/teacher-home") {
      tab := "teacher-home";
    } else if Includes(path, "/students") || Includes(path, "/messages") {
      tab := "students";
    } else if Includes(path, "/add-log") {
      tab := "add-log";
    } else if Includes(path, "/profile") || Includes(path, "/teacher-profile") {
      tab := if role == ParentRole then "profile" else "teacher-profile";
    } else if Includes(path, "/syllabus") {
      tab := "syllabus";
    } else if Includes(path, "/logs") {
      tab := "logs";
    }
  }

  /** A conversation keeps the students tab highlighted. */
  lemma MessagesHighlightStudents(path: string, role: UserRole)
    requires Includes(path, "/messages") && !Includes(path, "/teacher-home")
    ensures TabFor(path, role) == "students"
  {
    TabForAsChain(path, role);
  }

  /** A profile path highlights the profile tab of the portal's role. */
  lemma ProfileTabFollowsRole(path: string, role: UserRole)
    requires Includes(path, "/profile") || Includes(path, "/teacher-profile")
    requires !Includes(path, "/teacher-home") && !Includes(path, "/students")
    requires !Includes(path, "/messages") && !Includes(path, "/add-log")
    ensures TabFor(path, role) == if role == ParentRole then "profile" else "teacher-profile"
  {
    TabForAsChain(path, role);
  }

  /** A path with none of the fragments highlights the dashboard. */
  lemma NoFragmentMeansDashboard(path: string, role: UserRole)
    requires !Includes(path, "/teacher-home") && !Includes(path, "/students")
    requires !Includes(path, "/messages") && !Includes(path, "/add-log")
    requires !Includes(path, "/profile") && !Includes(path, "/teacher-profile")
    requires !Includes(path, "/syllabus") && !Includes(path, "/logs")
    ensures TabFor(path, role) == "dashboard"
  {
    TabForAsChain(path, role);
  }

  // ---------------------------------------------------------------------
  // Attendance history
  // ---------------------------------------------------------------------

  /** At most this many attendance dates are listed. */
  const MaxShownDates: nat := 15

  /** `logs.map(l => l.date)`. */
  function AttendanceDates(logs: seq<DailyLog>): (r: seq<string>)
    ensures |r| == |logs|
    ensures forall i :: 0 <= i < |logs| ==> r[i] == logs[i].date
  {
    seq(|logs|, i requires 0 <= i < |logs| => logs[i].date)
  }

  /** "No attendance recorded", or the listed dates and the "+N more" note. */
  datatype AttendanceView = NoAttendance | AttendanceList(shown: seq<string>, more: Option<nat>)

  /** The attendance panel: the first fifteen dates, and a note counting the
      rest when there are more. */
  function Attendance(dates: seq<string>): (v: AttendanceView)
    ensures v.NoAttendance? <==> |dates| == 0
    ensures v.AttendanceList? ==>
      && |v.shown| <= MaxShownDates
      && v.shown <= dates
      && (v.more.Some? <==> |dates| > MaxShownDates)
      && |v.shown| + v.more.GetOr(0) == |dates|
  {
    if |dates| == 0 then NoAttendance
    else if |dates| > MaxShownDates then AttendanceList(dates[..MaxShownDates], Some(|dates| - MaxShownDates))
    else AttendanceList(dates, None)
  }

  /** Short histories are listed in full; long ones show exactly fifteen. */
  lemma AttendanceShowsAsManyAsFit(dates: seq<string>)
    requires |dates| > 0
    ensures |dates| <= MaxShownDates ==> Attendance(dates).shown == dates
    ensures |dates| > MaxShownDates ==> |Attendance(dates).shown| == MaxShownDates
  {
  }

  // ---------------------------------------------------------------------
  // Portal routing, login and logout
  // ---------------------------------------------------------------------

  datatype Portal = ParentPortal | TeacherPortal | AdminPortal

  function PortalRole(p: Portal): UserRole {
    match p
    case ParentPortal => ParentRole
    case TeacherPortal => TeacherRole
    case AdminPortal => AdminRole
  }

  /** What a portal route shows: its layout for the role, or a redirect. */
  datatype RouteOutcome = RenderPortal(layoutRole: UserRole) | RedirectToLogin

  /** `(userRole === role && currentUser) ? <PortalLayout role /> : <Navigate to="/login" />`. */
  function PortalGuard(userRole: UserRole, currentUser: Option<User>, p: Portal): (r: RouteOutcome)
    ensures r.RenderPortal? <==> userRole == PortalRole(p) && currentUser.Some?
    ensures r.RenderPortal? ==> r.layoutRole == PortalRole(p)
  {
    if userRole == PortalRole(p) && currentUser.Some? then RenderPortal(PortalRole(p)) else RedirectToLogin
  }

  /** A signed-in user reaches exactly one portal: the one of their role;
      a guest reaches none. */
  lemma OnePortalPerRole(userRole: UserRole, user: User, p: Portal, q: Portal)
    requires PortalGuard(userRole, Some(user), p).RenderPortal?
    ensures PortalGuard(userRole, Some(user), q).RenderPortal? <==> q == p
    ensures userRole != GuestRole
  {
  }

  /** The `App` component's session state and the location hash. */
  class App {
    var userRole: UserRole
    var currentUser: Option<User>
    var location: string

    constructor (location: string)
      ensures userRole == GuestRole && currentUser.None? && this.location == location
    {
      userRole := GuestRole;
      currentUser := None;
      this.location := location;
    }

    /** The element the portal's route shows for the session as it is now. */
    function Route(p: Portal): (r: RouteOutcome)
      reads this
      ensures r.RenderPortal? <==> userRole == PortalRole(p) && currentUser.Some?
      ensures r == RenderPortal(PortalRole(p)) || r == RedirectToLogin
    {
      PortalGuard(userRole, currentUser, p)
    }

    /** `handleLogin`: the session takes the role and the user. */
    method HandleLogin(role: UserRole, user: User)
      modifies this`userRole, this`currentUser
      ensures userRole == role && currentUser == Some(user)
      ensures forall p :: Route(p).RenderPortal? <==> PortalRole(p) == role
    {
      userRole := role;
      currentUser := Some(user);
    }

    /** `handleLogout`: back to a guest without a user, at the login page;
        every portal redirects. */
    method HandleLogout()
      modifies this`userRole, this`currentUser, this`location
      ensures userRole == GuestRole && currentUser.None? && location == "/login"
      ensures forall p :: Route(p) == RedirectToLogin
    {
      userRole := GuestRole;
      currentUser := None;
      location := "/login";
    }

    /** `handleUserUpdate`: the edited profile replaces the user; the role
        stays, so a signed-in user keeps reaching the same portal. */
    method HandleUserUpdate(user: User)
      modifies this`currentUser
      ensures currentUser == Some(user)
      ensures forall p :: Route(p).RenderPortal? <==> PortalRole(p) == userRole
      ensures old(currentUser).Some? ==> forall p :: Route(p) == old(Route(p))
    {
      currentUser := Some(user);
    }
  }
}
