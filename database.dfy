/** The in-memory store behind the portal (services/database.ts): six
    collections held by one `Database` object, the queries over them, the
    commands that append, prepend and merge-update records, the password
    check, and one tick of the presence simulator.

    The queries are pure functions of the collections; the class members
    apply them to the current state. The clock (`Date.now()`, `new Date()`)
    is a parameter `now` in milliseconds; date-only fields take the date
    part of the clock as the parameter `today`. The artificial delays of the
    asynchronous members are not modelled: each call is one synchronous step. */
module MockDatabase {
  import opened Types
  import opened Sequences
  import opened Text

  /** The one password every account accepts. */
  const DemoPassword: string := "1234"

  /** Ids are a per-kind prefix followed by the clock in milliseconds. */
  function MessageId(now: nat): string { "msg-" + Decimal(now) }
  function LogId(now: nat): string { "log-" + Decimal(now) }
  function AnnouncementId(now: nat): string { "A-" + Decimal(now) }
  function ArtworkId(now: nat): string { "ART-" + Decimal(now) }

  // ---------------------------------------------------------------------
  // Record predicates handed to filter, find and findIndex
  // ---------------------------------------------------------------------

  function StudentHasId(id: string): Student -> bool { (s: Student) => s.id == id }
  function TeacherHasId(id: string): Teacher -> bool { (t: Teacher) => t.id == id }
  function LogMentions(studentId: string): DailyLog -> bool { (l: DailyLog) => studentId in l.studentIds }
  function OwnedBy(studentId: string): Artwork -> bool { (a: Artwork) => a.studentId == studentId }

  /** `!a.recipientId || a.recipientId === userId`: a broadcast (no recipient,
      or the falsy empty recipient) or one addressed to the viewer. */
  predicate IsVisibleTo(a: Announcement, userId: Option<string>) {
    a.recipientId.None? || a.recipientId.value == "" || userId == a.recipientId
  }

  function VisibleTo(userId: Option<string>): Announcement -> bool { (a: Announcement) => IsVisibleTo(a, userId) }

  /** The message was sent from one of the two users to the other. */
  predicate Between(m: DirectMessage, u1: string, u2: string) {
    (m.senderId == u1 && m.receiverId == u2) || (m.senderId == u2 && m.receiverId == u1)
  }

  function InConversation(u1: string, u2: string): DirectMessage -> bool { (m: DirectMessage) => Between(m, u1, u2) }

  function Timestamp(m: DirectMessage): int { m.timestamp }

  // ---------------------------------------------------------------------
  // Queries
  // ---------------------------------------------------------------------

  /** `students.findIndex(s => s.id === id)`. */
  function StudentIndex(students: seq<Student>, id: string): (k: int)
    ensures -1 <= k < |students|
    ensures k == -1 <==> forall i :: 0 <= i < |students| ==> students[i].id != id
    ensures 0 <= k ==> students[k].id == id && forall i :: 0 <= i < k ==> students[i].id != id
  {
    FindIndex(students, StudentHasId(id))
  }

  /** `teachers.findIndex(t => t.id === id)`. */
  function TeacherIndex(teachers: seq<Teacher>, id: string): (k: int)
    ensures -1 <= k < |teachers|
    ensures k == -1 <==> forall i :: 0 <= i < |teachers| ==> teachers[i].id != id
    ensures 0 <= k ==> teachers[k].id == id && forall i :: 0 <= i < k ==> teachers[i].id != id
  {
    FindIndex(teachers, TeacherHasId(id))
  }

  /** `students.find(s => s.id === id)`: the first student with that id. */
  function StudentById(students: seq<Student>, id: string): (r: Option<Student>)
    ensures r.None? <==> forall i :: 0 <= i < |students| ==> students[i].id != id
    ensures r.Some? ==> r.value.id == id && r.value == students[StudentIndex(students, id)]
  {
    Find(students, StudentHasId(id))
  }

  /** `teachers.find(t => t.id === id)`: the first teacher with that id. */
  function TeacherById(teachers: seq<Teacher>, id: string): (r: Option<Teacher>)
    ensures r.None? <==> forall i :: 0 <= i < |teachers| ==> teachers[i].id != id
    ensures r.Some? ==> r.value.id == id && r.value == teachers[TeacherIndex(teachers, id)]
  {
    Find(teachers, TeacherHasId(id))
  }

  /** The logs a student attended, in store order (newest first). */
  function LogsFor(logs: seq<DailyLog>, studentId: string): (r: seq<DailyLog>)
    ensures forall l :: l in r <==> l in logs && studentId in l.studentIds
    ensures forall l :: multiset(r)[l] == if studentId in l.studentIds then multiset(logs)[l] else 0
    ensures Subsequence(r, logs)
  {
    FilterMultiset(logs, LogMentions(studentId));
    Filter(logs, LogMentions(studentId))
  }

  /** The announcements a viewer sees, in store order. */
  function AnnouncementsFor(announcements: seq<Announcement>, userId: Option<string>): (r: seq<Announcement>)
    ensures forall a :: a in r <==> a in announcements && (a.recipientId.None? || a.recipientId.value == "" || userId == a.recipientId)
    ensures forall a :: multiset(r)[a] == (if IsVisibleTo(a, userId) then multiset(announcements)[a] else 0)
    ensures Subsequence(r, announcements)
  {
    FilterMultiset(announcements, VisibleTo(userId));
    Filter(announcements, VisibleTo(userId))
  }

  /** The artworks owned by one student, in store order. */
  function ArtworksFor(artworks: seq<Artwork>, studentId: string): (r: seq<Artwork>)
    ensures forall a :: a in r <==> a in artworks && a.studentId == studentId
    ensures forall a :: multiset(r)[a] == if a.studentId == studentId then multiset(artworks)[a] else 0
    ensures Subsequence(r, artworks)
  {
    FilterMultiset(artworks, OwnedBy(studentId));
    Filter(artworks, OwnedBy(studentId))
  }

  /** The messages between two users in store order, before sorting. */
  function ConversationMembers(messages: seq<DirectMessage>, u1: string, u2: string): seq<DirectMessage> {
    Filter(messages, InConversation(u1, u2))
  }

  /** `getMessages(u1, u2)`: exactly the messages exchanged between the two
      users in either direction (with their multiplicities), ascending by
      timestamp, and messages with equal timestamps in store order. */
  function Conversation(messages: seq<DirectMessage>, u1: string, u2: string): (r: seq<DirectMessage>)
    ensures forall m :: m in r <==> m in messages && Between(m, u1, u2)
    ensures forall m :: multiset(r)[m] == if Between(m, u1, u2) then multiset(messages)[m] else 0
    ensures SortedBy(r, Timestamp)
    ensures forall t :: WithKey(r, Timestamp, t) == WithKey(ConversationMembers(messages, u1, u2), Timestamp, t)
  {
    var members := ConversationMembers(messages, u1, u2);
    FilterMultiset(messages, InConversation(u1, u2));
    SortBy(members, Timestamp)
  }

  /** The conversation does not depend on which party asks. */
  lemma ConversationSymmetric(messages: seq<DirectMessage>, u1: string, u2: string)
    ensures Conversation(messages, u1, u2) == Conversation(messages, u2, u1)
  {
    FilterCongruent(messages, InConversation(u1, u2), InConversation(u2, u1));
  }

  /** When the clock has not gone backwards, a message sent between two
      users becomes the last entry of their conversation, and a message
      between other users leaves it as it was. */
  lemma ConversationAfterSend(messages: seq<DirectMessage>, m: DirectMessage, u1: string, u2: string)
    requires forall i :: 0 <= i < |messages| ==> messages[i].timestamp <= m.timestamp
    ensures Between(m, u1, u2) ==> Conversation(messages + [m], u1, u2) == Conversation(messages, u1, u2) + [m]
    ensures !Between(m, u1, u2) ==> Conversation(messages + [m], u1, u2) == Conversation(messages, u1, u2)
  {
    var f := ConversationMembers(messages, u1, u2);
    MembersAfterSend(messages, m, u1, u2);
    if Between(m, u1, u2) {
      forall i | 0 <= i < |f| ensures Timestamp(f[i]) <= Timestamp(m) {
        assert f[i] in messages;
      }
      SortByAppendLatest(f, m, Timestamp);
    } else {
      assert ConversationMembers(messages + [m], u1, u2) == f;
    }
  }

  /** Appending a message extends the unsorted conversation exactly when
      the message belongs to it. */
  lemma MembersAfterSend(messages: seq<DirectMessage>, m: DirectMessage, u1: string, u2: string)
    ensures ConversationMembers(messages + [m], u1, u2)
         == ConversationMembers(messages, u1, u2) + (if Between(m, u1, u2) then [m] else [])
  {
    var p := InConversation(u1, u2);
    FilterAppend(messages, [m], p);
    FilterCons(m, [], p);
    assert [m] + [] == [m];
  }

  /** Prepending a log puts it first in the list of every student it names,
      and leaves the lists of the other students as they were. */
  lemma LogsForPrepend(logs: seq<DailyLog>, log: DailyLog, studentId: string)
    ensures LogsFor([log] + logs, studentId)
         == (if studentId in log.studentIds then [log] else []) + LogsFor(logs, studentId)
  {
    assert ([log] + logs)[1..] == logs;
  }

  /** Prepending an announcement puts it first for every viewer who may see it. */
  lemma AnnouncementsForPrepend(announcements: seq<Announcement>, a: Announcement, userId: Option<string>)
    ensures AnnouncementsFor([a] + announcements, userId)
         == (if IsVisibleTo(a, userId) then [a] else []) + AnnouncementsFor(announcements, userId)
  {
    assert ([a] + announcements)[1..] == announcements;
  }

  /** Prepending an artwork puts it first in its owner's gallery only. */
  lemma ArtworksForPrepend(artworks: seq<Artwork>, art: Artwork, studentId: string)
    ensures ArtworksFor([art] + artworks, studentId)
         == (if art.studentId == studentId then [art] else []) + ArtworksFor(artworks, studentId)
  {
    assert ([art] + artworks)[1..] == artworks;
  }

  /** A broadcast announcement reaches every viewer, signed in or not. */
  lemma BroadcastReachesEveryone(announcements: seq<Announcement>, a: Announcement, userId: Option<string>)
    requires a in announcements && a.recipientId.None?
    ensures a in AnnouncementsFor(announcements, userId)
  {
  }

  // ---------------------------------------------------------------------
  // Login
  // ---------------------------------------------------------------------

  /** The record the admin login synthesizes, whatever id was typed. */
  const AdminRecord: User := AdminUser("admin", "Admin", "")

  /** `login(role, id, password)`: nothing unless the password is the demo
      password; then the first student with that id for a parent, the first
      teacher with that id for a teacher, the admin record for an admin,
      and nothing for a guest. */
  function Authenticate(students: seq<Student>, teachers: seq<Teacher>, role: UserRole, id: string, password: string): (r: Option<User>)
    ensures password != DemoPassword ==> r.None?
    ensures role == GuestRole ==> r.None?
    ensures password == DemoPassword && role == ParentRole ==>
      (r.Some? <==> exists i :: 0 <= i < |students| && students[i].id == id)
    ensures password == DemoPassword && role == TeacherRole ==>
      (r.Some? <==> exists i :: 0 <= i < |teachers| && teachers[i].id == id)
    ensures r.Some? && role == ParentRole ==> r.value == StudentUser(students[StudentIndex(students, id)])
    ensures r.Some? && role == TeacherRole ==> r.value == TeacherUser(teachers[TeacherIndex(teachers, id)])
    ensures r.Some? && role != AdminRole ==> r.value.Id() == id
    ensures password == DemoPassword && role == AdminRole ==> r == Some(AdminRecord)
  {
    if password != DemoPassword then None
    else match role
      case ParentRole =>
        (match StudentById(students, id)
         case Some(s) => Some(StudentUser(s))
         case None => None)
      case TeacherRole =>
        (match TeacherById(teachers, id)
         case Some(t) => Some(TeacherUser(t))
         case None => None)
      case AdminRole => Some(AdminRecord)
      case GuestRole => None
  }

  // ---------------------------------------------------------------------
  // Partial updates: `{ ...record, ...updates }`
  // ---------------------------------------------------------------------

  /** A `Partial<Student>`: each field the caller supplies. */
  datatype StudentPatch = StudentPatch(
    id: Option<string>,
    name: Option<string>,
    age: Option<int>,
    schoolName: Option<string>,
    address: Option<string>,
    admissionDate: Option<string>,
    currentLevel: Option<ClassLevel>,
    profileImage: Option<string>,
    schedule: Option<seq<ClassSchedule>>,
    isOnline: Option<bool>,
    lastSeen: Option<int>)

  /** A `Partial<Teacher>`: each field the caller supplies. */
  datatype TeacherPatch = TeacherPatch(
    id: Option<string>,
    name: Option<string>,
    specialization: Option<string>,
    profileImage: Option<string>,
    upcomingClasses: Option<int>,
    isOnline: Option<bool>,
    lastSeen: Option<int>)

  /** The patch the profile editor sends: a new name and picture. */
  function ProfilePatch(name: string, image: string): StudentPatch {
    StudentPatch(None, Some(name), None, None, None, None, None, Some(image), None, None, None)
  }

  const NoStudentChange: StudentPatch := StudentPatch(None, None, None, None, None, None, None, None, None, None, None)
  const NoTeacherChange: TeacherPatch := TeacherPatch(None, None, None, None, None, None, None)

  /** Every supplied field overrides; every other field keeps its value. */
  function MergeStudent(s: Student, p: StudentPatch): (r: Student)
    ensures p.id.Some? ==> r.id == p.id.value
    ensures p.id.None? ==> r.id == s.id
    ensures p.name.Some? ==> r.name == p.name.value
    ensures p.name.None? ==> r.name == s.name
    ensures p.profileImage.Some? ==> r.profileImage == p.profileImage.value
    ensures p.profileImage.None? ==> r.profileImage == s.profileImage
    ensures p.age.Some? ==> r.age == p.age.value
    ensures p.age.None? ==> r.age == s.age
    ensures p.schoolName.Some? ==> r.schoolName == p.schoolName.value
    ensures p.schoolName.None? ==> r.schoolName == s.schoolName
    ensures p.address.Some? ==> r.address == p.address.value
    ensures p.address.None? ==> r.address == s.address
    ensures p.admissionDate.Some? ==> r.admissionDate == p.admissionDate.value
    ensures p.admissionDate.None? ==> r.admissionDate == s.admissionDate
    ensures p.currentLevel.Some? ==> r.currentLevel == p.currentLevel.value
    ensures p.currentLevel.None? ==> r.currentLevel == s.currentLevel
    ensures p.schedule.Some? ==> r.schedule == p.schedule.value
    ensures p.schedule.None? ==> r.schedule == s.schedule
    ensures p.isOnline.Some? ==> r.isOnline == p.isOnline
    ensures p.isOnline.None? ==> r.isOnline == s.isOnline
    ensures p.lastSeen.Some? ==> r.lastSeen == p.lastSeen
    ensures p.lastSeen.None? ==> r.lastSeen == s.lastSeen
    ensures p == NoStudentChange ==> r == s
  {
    Student(
      p.id.GetOr(s.id), p.name.GetOr(s.name), p.age.GetOr(s.age),
      p.schoolName.GetOr(s.schoolName), p.address.GetOr(s.address),
      p.admissionDate.GetOr(s.admissionDate), p.currentLevel.GetOr(s.currentLevel),
      p.profileImage.GetOr(s.profileImage), p.schedule.GetOr(s.schedule),
      if p.isOnline.Some? then p.isOnline else s.isOnline,
      if p.lastSeen.Some? then p.lastSeen else s.lastSeen)
  }

  /** Every supplied field overrides; every other field keeps its value. */
  function MergeTeacher(t: Teacher, p: TeacherPatch): (r: Teacher)
    ensures p.id.Some? ==> r.id == p.id.value
    ensures p.id.None? ==> r.id == t.id
    ensures p.name.Some? ==> r.name == p.name.value
    ensures p.name.None? ==> r.name == t.name
    ensures p.profileImage.Some? ==> r.profileImage == p.profileImage.value
    ensures p.profileImage.None? ==> r.profileImage == t.profileImage
    ensures p.specialization.Some? ==> r.specialization == p.specialization.value
    ensures p.specialization.None? ==> r.specialization == t.specialization
    ensures p.upcomingClasses.Some? ==> r.upcomingClasses == p.upcomingClasses.value
    ensures p.upcomingClasses.None? ==> r.upcomingClasses == t.upcomingClasses
    ensures p.isOnline.Some? ==> r.isOnline == p.isOnline
    ensures p.isOnline.None? ==> r.isOnline == t.isOnline
    ensures p.lastSeen.Some? ==> r.lastSeen == p.lastSeen
    ensures p.lastSeen.None? ==> r.lastSeen == t.lastSeen
    ensures p == NoTeacherChange ==> r == t
  {
    Teacher(
      p.id.GetOr(t.id), p.name.GetOr(t.name), p.specialization.GetOr(t.specialization),
      p.profileImage.GetOr(t.profileImage), p.upcomingClasses.GetOr(t.upcomingClasses),
      if p.isOnline.Some? then p.isOnline else t.isOnline,
      if p.lastSeen.Some? then p.lastSeen else t.lastSeen)
  }

  /** Applying the same patch twice is the same as applying it once. */
  lemma MergeStudentIdempotent(s: Student, p: StudentPatch)
    ensures MergeStudent(MergeStudent(s, p), p) == MergeStudent(s, p)
  {
  }

  /** A profile edit changes the name and the picture and nothing else. */
  lemma ProfilePatchTouchesNameAndImage(s: Student, name: string, image: string)
    ensures MergeStudent(s, ProfilePatch(name, image))
         == s.(name := name, profileImage := image)
  {
  }

  // ---------------------------------------------------------------------
  // Presence simulator
  // ---------------------------------------------------------------------

  /** `!isOnline`, where an absent flag reads as offline. */
  function Flipped(isOnline: Option<bool>): bool {
    !(isOnline == Some(true))
  }

  /** One flip of a student's presence: the flag is negated, and going
      offline stamps `lastSeen` with the clock. */
  function FlipStudent(s: Student, now: int): (r: Student)
    ensures r.isOnline.Some? && (r.isOnline.value <==> s.isOnline != Some(true))
    ensures r.lastSeen == if r.isOnline == Some(false) then Some(now) else s.lastSeen
    ensures r.(isOnline := s.isOnline, lastSeen := s.lastSeen) == s
  {
    var online := Flipped(s.isOnline);
    s.(isOnline := Some(online), lastSeen := if online then s.lastSeen else Some(now))
  }

  /** One flip of a teacher's presence, as for a student. */
  function FlipTeacher(t: Teacher, now: int): (r: Teacher)
    ensures r.isOnline.Some? && (r.isOnline.value <==> t.isOnline != Some(true))
    ensures r.lastSeen == if r.isOnline == Some(false) then Some(now) else t.lastSeen
    ensures r.(isOnline := t.isOnline, lastSeen := t.lastSeen) == t
  {
    var online := Flipped(t.isOnline);
    t.(isOnline := Some(online), lastSeen := if online then t.lastSeen else Some(now))
  }

  /** Two flips restore a flag that was set; an unset flag reads as offline
      and so ends up explicitly offline. */
  lemma FlipTwice(s: Student, t1: int, t2: int)
    ensures FlipStudent(FlipStudent(s, t1), t2).isOnline
         == (if s.isOnline.Some? then s.isOnline else Some(false))
  {
    var once := FlipStudent(s, t1);
    assert once.isOnline == Some(s.isOnline != Some(true));
    match s.isOnline
    case None =>
      assert once.isOnline == Some(true);
    case Some(b) =>
      assert once.isOnline == Some(!b);
  }

  // ---------------------------------------------------------------------
  // Seed data
  // ---------------------------------------------------------------------

  function InitialAnnouncements(): seq<Announcement> {
    [ Announcement("A1", "Annual Art Exhibition", "2024-06-15",
        "Submissions for the summer gala are due by Friday. Please ensure canvases are framed.",
        High, Some(false), None),
      Announcement("A2", "Holiday Closure", "2024-05-28",
        "The studio will be closed this Monday for maintenance.", Low, Some(true), None) ]
  }

  function InitialArtworks(): seq<Artwork> {
    [ Artwork("ART-001", "ST-2024-001", "Sunset over Hills", "Watercolor study focusing on warm gradients.",
        "https://picsum.photos/id/1015/600/600", "2024-05-10"),
      Artwork("ART-002", "ST-2024-001", "Fruit Basket", "Still life composition using oil pastels.",
        "https://picsum.photos/id/1080/600/600", "2024-04-22") ]
  }

  /** The seeded students; `now` is the clock when the store was created. */
  function InitialStudents(now: int): seq<Student> {
    [ Student("ST-2024-001", "Aarav Sharma", 9, "Greenwood High International", "42, Maple Avenue, Sector 12",
        "2024-01-15", 3, "https://picsum.photos/id/237/200/200",
        [ClassSchedule("Monday", "4:00 PM - 5:30 PM", "Watercolors"), ClassSchedule("Thursday", "4:00 PM - 5:30 PM", "Sketching")],
        Some(true), Some(now)),
      Student("ST-2024-002", "Zara Khan", 11, "Metropolis High", "10, Creative Block, City Center",
        "2023-08-10", 5, "https://picsum.photos/id/1011/200/200",
        [ClassSchedule("Tuesday", "5:00 PM - 6:30 PM", "Oil Pastels"), ClassSchedule("Friday", "5:00 PM - 6:30 PM", "Perspective")],
        Some(false), Some(1716301800000)),
      Student("ST-2024-003", "Vihaan Gupta", 7, "Little Stars Academy", "5, River View, East End",
        "2024-03-01", 1, "https://picsum.photos/id/1005/200/200",
        [ClassSchedule("Wednesday", "3:30 PM - 4:30 PM", "Finger Painting"), ClassSchedule("Saturday", "10:00 AM - 11:30 AM", "Crafts")],
        Some(false), Some(1716195600000)) ]
  }

  function InitialTeachers(now: int): seq<Teacher> {
    [ Teacher("T-001", "Kashmira Jha", "Fine Arts & Oil Painting", "https://picsum.photos/id/64/200/200", 3, Some(true), Some(now)),
      Teacher("T-002", "Rohan Das", "Sculpture & Pottery", "https://picsum.photos/id/91/200/200", 2, Some(false), Some(1716309900000)),
      Teacher("T-003", "Sarah Lee", "Watercolors & Landscapes", "https://picsum.photos/id/65/200/200", 4, Some(false), Some(1716286500000)) ]
  }

  function InitialLogs(): seq<DailyLog> {
    [ DailyLog("log-1", ["ST-2024-001"], "2024-05-20", "04:00 PM", "05:30 PM", "Watercolor Landscapes",
        "Today we focused on the 'wet-on-wet' technique to create a soft sky background.",
        "Observe the sunset colors today and write down 3 colors you see.",
        ["https://picsum.photos/id/10/400/300", "https://picsum.photos/id/11/400/300"], None),
      DailyLog("log-2", ["ST-2024-001", "ST-2024-003"], "2024-05-18", "04:00 PM", "05:30 PM", "Tree Textures",
        "Learning how to use a dry brush to create rough bark textures.",
        "Collect a real leaf and bring it to the next class.",
        ["https://picsum.photos/id/12/400/300", "https://www.w3schools.com/html/mov_bbb.mp4"], None) ]
  }

  function InitialMessages(): seq<DirectMessage> {
    [ DirectMessage("m1", "ST-2024-001", "T-001", "Hi Ms. Kashmira, Aarav will be 10 mins late today.", 1716305400000, true),
      DirectMessage("m2", "T-001", "ST-2024-001",
        "No problem, thanks for letting me know! We are starting with sketching today.", 1716305520000, true) ]
  }

  /** The demo login: the seeded parent account with the demo password gets
      Aarav Sharma's record; any other password gets nothing. */
  lemma DemoLogin(now: int, wrong: string)
    requires wrong != DemoPassword
    ensures Authenticate(InitialStudents(now), InitialTeachers(now), ParentRole, "ST-2024-001", "1234")
         == Some(StudentUser(InitialStudents(now)[0]))
    ensures InitialStudents(now)[0].name == "Aarav Sharma"
    ensures Authenticate(InitialStudents(now), InitialTeachers(now), ParentRole, "ST-2024-001", wrong).None?
  {
    assert StudentIndex(InitialStudents(now), "ST-2024-001") == 0;
  }

  // ---------------------------------------------------------------------
  // The store
  // ---------------------------------------------------------------------

  /** The draft `addLog` receives: a log without its id. */
  datatype LogDraft = LogDraft(
    studentIds: seq<string>,
    date: string,
    entryTime: string,
    exitTime: string,
    activityTitle: string,
    activityDescription: string,
    homework: string,
    mediaUrls: seq<string>,
    teacherNote: Option<string>)
  {
    function WithId(id: string): DailyLog {
      DailyLog(id, studentIds, date, entryTime, exitTime, activityTitle,
               activityDescription, homework, mediaUrls, teacherNote)
    }
  }

  /** The draft `addAnnouncement` receives: no id, date or read flag. */
  datatype AnnouncementDraft = AnnouncementDraft(
    title: string, content: string, priority: Priority, recipientId: Option<string>)

  /** The draft `addArtwork` receives: no id or date. */
  datatype ArtworkDraft = ArtworkDraft(
    studentId: string, title: string, description: string, imageUrl: string)

  class Database {
    var students: seq<Student>
    var teachers: seq<Teacher>
    var logs: seq<DailyLog>
    var announcements: seq<Announcement>
    var artworks: seq<Artwork>
    var messages: seq<DirectMessage>

    /** The store as the module initialises it at clock `now`. */
    constructor (now: nat)
      ensures students == InitialStudents(now) && teachers == InitialTeachers(now)
      ensures logs == InitialLogs() && announcements == InitialAnnouncements()
      ensures artworks == InitialArtworks() && messages == InitialMessages()
    {
      students := InitialStudents(now);
      teachers := InitialTeachers(now);
      logs := InitialLogs();
      announcements := InitialAnnouncements();
      artworks := InitialArtworks();
      messages := InitialMessages();
    }

    /** `login`, over the records the store holds now. */
    function Login(role: UserRole, id: string, password: string): (r: Option<User>)
      reads this
      ensures r == Authenticate(students, teachers, role, id, password)
    {
      Authenticate(students, teachers, role, id, password)
    }

    /** `changePassword` only acknowledges: it reports success and, having
        nothing in its frame, changes nothing. */
    method ChangePassword(userId: string, newPassword: string) returns (ok: bool)
      ensures ok
    {
      ok := true;
    }

    /** `getStudentById`: the first student with the id. */
    function GetStudentById(id: string): (r: Option<Student>)
      reads this
      ensures r == StudentById(students, id)
    {
      StudentById(students, id)
    }

    /** `getAllStudents`: a copy of the students, in store order. */
    function GetAllStudents(): (r: seq<Student>)
      reads this
      ensures r == students
    {
      students
    }

    /** `getAllTeachers`: a copy of the teachers, in store order. */
    function GetAllTeachers(): (r: seq<Teacher>)
      reads this
      ensures r == teachers
    {
      teachers
    }

    /** `getAllLogs`: a copy of the logs, newest first. */
    function GetAllLogs(): (r: seq<DailyLog>)
      reads this
      ensures r == logs
    {
      logs
    }

    /** `getLogsForStudent`: the logs naming the student. */
    function GetLogsForStudent(studentId: string): (r: seq<DailyLog>)
      reads this
      ensures r == LogsFor(logs, studentId)
    {
      LogsFor(logs, studentId)
    }

    /** `getAnnouncements`: the announcements the viewer may see. */
    function GetAnnouncements(userId: Option<string>): (r: seq<Announcement>)
      reads this
      ensures r == AnnouncementsFor(announcements, userId)
    {
      AnnouncementsFor(announcements, userId)
    }

    /** `getArtworksForStudent`: the student's gallery. */
    function GetArtworksForStudent(studentId: string): (r: seq<Artwork>)
      reads this
      ensures r == ArtworksFor(artworks, studentId)
    {
      ArtworksFor(artworks, studentId)
    }

    /** `getMessages`: the conversation of two users, oldest first. */
    function GetMessages(u1: string, u2: string): (r: seq<DirectMessage>)
      reads this
      ensures r == Conversation(messages, u1, u2)
    {
      Conversation(messages, u1, u2)
    }

    /** `sendMessage`: appends one unread message stamped with the clock;
        every earlier message stays where it was. */
    method SendMessage(senderId: string, receiverId: string, content: string, now: nat) returns (msg: DirectMessage)
      modifies this`messages
      ensures msg == DirectMessage(MessageId(now), senderId, receiverId, content, now, false)
      ensures messages == old(messages) + [msg]
    {
      msg := DirectMessage(MessageId(now), senderId, receiverId, content, now, false);
      messages := messages + [msg];
    }

    /** `addLog`: the draft with a clock-derived id goes to the front; it
        heads the log list of every student it names. */
    method AddLog(draft: LogDraft, now: nat) returns (log: DailyLog)
      modifies this`logs
      ensures log == draft.WithId(LogId(now))
      ensures logs == [log] + old(logs)
      ensures forall id :: GetLogsForStudent(id)
                == (if id in draft.studentIds then [log] else []) + LogsFor(old(logs), id)
    {
      log := draft.WithId(LogId(now));
      logs := [log] + logs;
      forall id ensures LogsFor(logs, id) == (if id in draft.studentIds then [log] else []) + LogsFor(old(logs), id) {
        LogsForPrepend(old(logs), log, id);
      }
    }

    /** `addStudent`: appends the record. */
    method AddStudent(student: Student)
      modifies this`students
      ensures students == old(students) + [student]
    {
      students := students + [student];
    }

    /** `addAnnouncement`: an unread announcement dated today goes to the
        front, where every viewer allowed to see it finds it first. */
    method AddAnnouncement(draft: AnnouncementDraft, now: nat, today: string) returns (a: Announcement)
      modifies this`announcements
      ensures a == Announcement(AnnouncementId(now), draft.title, today, draft.content,
                                draft.priority, Some(false), draft.recipientId)
      ensures announcements == [a] + old(announcements)
      ensures forall u :: GetAnnouncements(u)
                == (if IsVisibleTo(a, u) then [a] else []) + AnnouncementsFor(old(announcements), u)
    {
      a := Announcement(AnnouncementId(now), draft.title, today, draft.content,
                        draft.priority, Some(false), draft.recipientId);
      announcements := [a] + announcements;
      forall u ensures AnnouncementsFor(announcements, u)
                 == (if IsVisibleTo(a, u) then [a] else []) + AnnouncementsFor(old(announcements), u) {
        AnnouncementsForPrepend(old(announcements), a, u);
      }
    }

    /** `addArtwork`: the artwork, dated today, goes to the front. */
    method AddArtwork(draft: ArtworkDraft, now: nat, today: string) returns (art: Artwork)
      modifies this`artworks
      ensures art == Artwork(ArtworkId(now), draft.studentId, draft.title, draft.description,
                             draft.imageUrl, today)
      ensures artworks == [art] + old(artworks)
      ensures forall id :: GetArtworksForStudent(id)
                == (if id == draft.studentId then [art] else []) + ArtworksFor(old(artworks), id)
    {
      art := Artwork(ArtworkId(now), draft.studentId, draft.title, draft.description,
                     draft.imageUrl, today);
      artworks := [art] + artworks;
      forall id ensures ArtworksFor(artworks, id)
                  == (if id == draft.studentId then [art] else []) + ArtworksFor(old(artworks), id) {
        ArtworksForPrepend(old(artworks), art, id);
      }
    }

    /** `updateStudent`: an unknown id gives nothing and changes nothing;
        otherwise only the first record with that id is replaced by its
        merge with the patch, which is returned. */
    method UpdateStudent(id: string, patch: StudentPatch) returns (r: Option<Student>)
      modifies this`students
      ensures StudentIndex(old(students), id) == -1 ==> r.None? && students == old(students)
      ensures StudentIndex(old(students), id) >= 0 ==>
        var k := StudentIndex(old(students), id);
        && students == old(students)[k := MergeStudent(old(students)[k], patch)]
        && r == Some(students[k])
    {
      var k := StudentIndex(students, id);
      if k != -1 {
        students := students[k := MergeStudent(students[k], patch)];
        r := Some(students[k]);
      } else {
        r := None;
      }
    }

    /** `updateTeacher`: as `updateStudent`, over the teachers. */
    method UpdateTeacher(id: string, patch: TeacherPatch) returns (r: Option<Teacher>)
      modifies this`teachers
      ensures TeacherIndex(old(teachers), id) == -1 ==> r.None? && teachers == old(teachers)
      ensures TeacherIndex(old(teachers), id) >= 0 ==>
        var k := TeacherIndex(old(teachers), id);
        && teachers == old(teachers)[k := MergeTeacher(old(teachers)[k], patch)]
        && r == Some(teachers[k])
    {
      var k := TeacherIndex(teachers, id);
      if k != -1 {
        teachers := teachers[k := MergeTeacher(teachers[k], patch)];
        r := Some(teachers[k]);
      } else {
        r := None;
      }
    }

    /** One tick of the presence simulator, with the randomly drawn indices
        as parameters: exactly one student and one teacher flip. */
    method PresenceTick(studentIndex: nat, teacherIndex: nat, now: nat)
      requires studentIndex < |students| && teacherIndex < |teachers|
      modifies this`students, this`teachers
      ensures students == old(students)[studentIndex := FlipStudent(old(students)[studentIndex], now)]
      ensures teachers == old(teachers)[teacherIndex := FlipTeacher(old(teachers)[teacherIndex], now)]
    {
      var s := students[studentIndex];
      var online := !(s.isOnline == Some(true));
      s := s.(isOnline := Some(online));
      if !online {
        s := s.(lastSeen := Some(now));
      }
      students := students[studentIndex := s];

      var t := teachers[teacherIndex];
      var tOnline := !(t.isOnline == Some(true));
      t := t.(isOnline := Some(tOnline));
      if !tOnline {
        t := t.(lastSeen := Some(now));
      }
      teachers := teachers[teacherIndex := t];
    }
  }
}
