/** The records of the studio portal (types.ts), as Dafny values.
    Timestamps are integers (milliseconds since the epoch); optional
    fields are `Option`s. */
module Types {

  datatype Option<+T> = None | Some(value: T) {
    function GetOr(default: T): T {
      match this
      case Some(v) => v
      case None => default
    }
  }

  /** `ClassLevel`: the ordinal levels One = 1 .. Seven = 7. */
  type ClassLevel = l: int | 1 <= l <= 7 witness 1

  datatype UserRole = GuestRole | ParentRole | TeacherRole | AdminRole

  datatype Priority = Low | High

  datatype ClassSchedule = ClassSchedule(day: string, time: string, subject: string)

  datatype Student = Student(
    id: string,
    name: string,
    age: int,
    schoolName: string,
    address: string,
    admissionDate: string,
    currentLevel: ClassLevel,
    profileImage: string,
    schedule: seq<ClassSchedule>,
    isOnline: Option<bool>,
    lastSeen: Option<int>)

  datatype Teacher = Teacher(
    id: string,
    name: string,
    specialization: string,
    profileImage: string,
    upcomingClasses: int,
    isOnline: Option<bool>,
    lastSeen: Option<int>)

  datatype DailyLog = DailyLog(
    id: string,
    studentIds: seq<string>,
    date: string,
    entryTime: string,
    exitTime: string,
    activityTitle: string,
    activityDescription: string,
    homework: string,
    mediaUrls: seq<string>,
    teacherNote: Option<string>)

  datatype Announcement = Announcement(
    id: string,
    title: string,
    date: string,
    content: string,
    priority: Priority,
    read: Option<bool>,
    recipientId: Option<string>)

  datatype Artwork = Artwork(
    id: string,
    studentId: string,
    title: string,
    description: string,
    imageUrl: string,
    date: string)

  datatype DirectMessage = DirectMessage(
    id: string,
    senderId: string,
    receiverId: string,
    content: string,
    timestamp: int,
    read: bool)

  /** What a successful login hands to the application shell: a student
      record (parent portal), a teacher record, or the synthesized admin
      record. The shell's `currentUser` and the chat contacts range over it. */
  datatype User =
    | StudentUser(student: Student)
    | TeacherUser(teacher: Teacher)
    | AdminUser(adminId: string, adminName: string, adminImage: string)
  {
    function Id(): string {
      match this
      case StudentUser(s) => s.id
      case TeacherUser(t) => t.id
      case AdminUser(i, _, _) => i
    }

    function Name(): string {
      match this
      case StudentUser(s) => s.name
      case TeacherUser(t) => t.name
      case AdminUser(_, n, _) => n
    }
  }
}
