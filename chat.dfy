/** The conversation screen (`ChatPage` in App.tsx): the contact list, the
    selected contact, the messages on screen and the text being typed. The
    one-second message poll and the three-second contact poll are modelled
    as single steps (`FetchMessages`, `FetchContacts`) that the timers would
    repeat; `now` stands for the clock in milliseconds. */
module ChatView {
  import opened Types
  import opened Sequences
  import opened Text
  import opened MockDatabase
  import opened AppRules

  /** The id of an optimistic entry: `temp-` and the clock. */
  function TempId(now: nat): string { "temp-" + Decimal(now) }

  /** The entry the screen shows as soon as a message is sent, before any
      poll has returned it from the store. */
  function Optimistic(me: string, other: string, content: string, now: nat): (m: DirectMessage)
    ensures m.id == TempId(now) && m.senderId == me && m.receiverId == other
    ensures m.content == content && m.timestamp == now && !m.read
  {
    DirectMessage(TempId(now), me, other, content, now, false)
  }

  /** An optimistic id never equals an id the store hands out. */
  lemma TempIdsAreNotStoreIds(t1: nat, t2: nat)
    ensures TempId(t1) != MessageId(t2)
  {
    assert TempId(t1)[0] == 't' && MessageId(t2)[0] == 'm';
  }

  /** The poll's merge: the fetched conversation replaces what is on screen
      only when the two differ in length; otherwise the screen is kept. */
  function PollMerge(onScreen: seq<DirectMessage>, fetched: seq<DirectMessage>): (r: seq<DirectMessage>)
    ensures |r| == |fetched|
    ensures r == fetched || r == onScreen
    ensures r != fetched ==> |onScreen| == |fetched|
    ensures |onScreen| == |fetched| ==> r == onScreen
  {
    if |onScreen| != |fetched| then fetched else onScreen
  }

  /** Polling twice against an unchanged store changes nothing more. */
  lemma PollMergeIdempotent(onScreen: seq<DirectMessage>, fetched: seq<DirectMessage>)
    ensures PollMerge(PollMerge(onScreen, fetched), fetched) == PollMerge(onScreen, fetched)
  {
  }

  /** After a send, the screen holds the conversation plus the optimistic
      entry, and the store holds the conversation plus the stored message;
      the lengths agree, so polls keep the optimistic entry (with its `temp-`
      id) on screen until the conversation changes length. */
  lemma OptimisticEntryPersists(messages: seq<DirectMessage>, me: string, other: string, content: string, now: nat)
    ensures var view := Conversation(messages, me, other) + [Optimistic(me, other, content, now)];
            var stored := DirectMessage(MessageId(now), me, other, content, now, false);
            PollMerge(view, Conversation(messages + [stored], me, other)) == view
  {
    var stored := DirectMessage(MessageId(now), me, other, content, now, false);
    MembersAfterSend(messages, stored, me, other);
    assert Between(stored, me, other);
    assert |Conversation(messages + [stored], me, other)| == |Conversation(messages, me, other)| + 1;
  }

  /** The shape of the finding on contact switching: two one-message
      conversations of the same length, with different contacts. */
  function SwitchExample(): seq<DirectMessage> {
    [ DirectMessage("a", "me", "A", "to A", 1, false),
      DirectMessage("b", "B", "me", "from B", 2, false) ]
  }

  /** As written, the poll after switching from contact A to contact B keeps
      A's conversation on screen, because both have one message. */
  lemma StaleConversationAfterSwitch()
    ensures var convA := Conversation(SwitchExample(), "me", "A");
            var convB := Conversation(SwitchExample(), "me", "B");
            convA != convB && PollMerge(convA, convB) == convA
  {
    var msgs := SwitchExample();
    var a, b := msgs[0], msgs[1];
    assert ConversationMembers(msgs, "me", "A") == [a] by {
      FilterCons(a, [b], InConversation("me", "A"));
      FilterCons(b, [], InConversation("me", "A"));
      assert msgs == [a] + [b];
    }
    assert ConversationMembers(msgs, "me", "B") == [b] by {
      FilterCons(a, [b], InConversation("me", "B"));
      FilterCons(b, [], InConversation("me", "B"));
      assert msgs == [a] + [b];
    }
    assert Conversation(msgs, "me", "A") == [a];
    assert Conversation(msgs, "me", "B") == [b];
  }

  /** A contact, as the contact list shows it, identified by its id. */
  function HasId(id: Option<string>): User -> bool { (c: User) => Some(c.Id()) == id }

  /** `role === 'teacher' ? getAllStudents() : getAllTeachers()`: a teacher
      talks to students, everyone else to teachers, in store order. */
  function ContactsFor(role: UserRole, students: seq<Student>, teachers: seq<Teacher>): (r: seq<User>)
    ensures role == TeacherRole ==> |r| == |students| && forall i :: 0 <= i < |r| ==> r[i] == StudentUser(students[i])
    ensures role != TeacherRole ==> |r| == |teachers| && forall i :: 0 <= i < |r| ==> r[i] == TeacherUser(teachers[i])
  {
    if role == TeacherRole then seq(|students|, i requires 0 <= i < |students| => StudentUser(students[i]))
    else seq(|teachers|, i requires 0 <= i < |teachers| => TeacherUser(teachers[i]))
  }

  /** A teacher's contacts are exactly the students, and nobody else's
      contacts include a student. */
  lemma TeacherContactsAreStudents(role: UserRole, students: seq<Student>, teachers: seq<Teacher>, u: User)
    ensures u in ContactsFor(role, students, teachers) <==>
      if role == TeacherRole then u.StudentUser? && u.student in students
      else u.TeacherUser? && u.teacher in teachers
  {
    var r := ContactsFor(role, students, teachers);
    if role == TeacherRole && u.StudentUser? && u.student in students {
      var i :| 0 <= i < |students| && students[i] == u.student;
      assert r[i] == u;
    }
    if role != TeacherRole && u.TeacherUser? && u.teacher in teachers {
      var i :| 0 <= i < |teachers| && teachers[i] == u.teacher;
      assert r[i] == u;
    }
  }

  class ChatPage {
    const db: Database
    const me: string
    const role: UserRole
    var contacts: seq<User>
    var selected: Option<string>
    var messages: seq<DirectMessage>
    var inputText: string
    var searchTerm: string

    /** The screen as it mounts: no contacts or messages yet, and the
        contact named by the route selected (an empty route id selects
        nobody). */
    constructor (db: Database, me: string, role: UserRole, chatId: Option<string>)
      ensures this.db == db && this.me == me && this.role == role
      ensures contacts == [] && messages == [] && inputText == "" && searchTerm == ""
      ensures selected == (if chatId == Some("") then None else chatId)
    {
      this.db := db;
      this.me := me;
      this.role := role;
      contacts := [];
      selected := if chatId == Some("") then None else chatId;
      messages := [];
      inputText := "";
      searchTerm := "";
    }

    /** `contacts.find(c => c.id === selectedContactId)`. */
    function ActiveContact(): (r: Option<User>)
      reads this
      ensures r.None? <==> forall i :: 0 <= i < |contacts| ==> Some(contacts[i].Id()) != selected
      ensures r.Some? ==> exists k :: 0 <= k < |contacts| && r.value == contacts[k] && Some(contacts[k].Id()) == selected
                                     && forall j :: 0 <= j < k ==> Some(contacts[j].Id()) != selected
    {
      Find(contacts, HasId(selected))
    }

    /** The contact list under the search box. */
    function FilteredContacts(): (r: seq<User>)
      reads this
      ensures r == SearchUsers(contacts, searchTerm)
    {
      SearchUsers(contacts, searchTerm)
    }

    /** One run of `fetchContacts`. */
    method FetchContacts()
      modifies this`contacts
      ensures contacts == ContactsFor(role, db.students, db.teachers)
    {
      contacts := ContactsFor(role, db.students, db.teachers);
    }

    /** A change of the route's chat id: a non-empty id selects that contact. */
    method OnChatIdChange(chatId: Option<string>)
      modifies this`selected
      ensures selected == (if chatId.Some? && chatId.value != "" then chatId else old(selected))
    {
      if chatId.Some? && chatId.value != "" {
        selected := chatId;
      }
    }

    method SetInputText(text: string)
      modifies this`inputText
      ensures inputText == text
    {
      inputText := text;
    }

    method SetSearchTerm(term: string)
      modifies this`searchTerm
      ensures searchTerm == term
    {
      searchTerm := term;
    }

    /** One run of `fetchMessages`: nothing without an active contact;
        otherwise the conversation with it, merged by length. */
    method FetchMessages()
      modifies this`messages
      ensures ActiveContact().None? ==> messages == old(messages)
      ensures ActiveContact().Some? ==>
        messages == PollMerge(old(messages), db.GetMessages(me, ActiveContact().value.Id()))
    {
      var contact := ActiveContact();
      if contact.Some? {
        var fetched := db.GetMessages(me, contact.value.Id());
        messages := PollMerge(messages, fetched);
      }
    }

    /** `handleContactSelect` as written: the selection changes and the
        message effect polls at once, but the previous contact's messages
        are still the ones the merge compares against. */
    method SelectContactAsWritten(id: string)
      modifies this`selected, this`messages
      ensures selected == Some(id)
      ensures ActiveContact().None? ==> messages == old(messages)
      ensures ActiveContact().Some? ==> messages == PollMerge(old(messages), db.GetMessages(me, id))
    {
      selected := Some(id);
      FetchMessages();
    }

    /** Selecting a contact with the screen cleared first: the immediate
        poll then shows exactly the conversation with that contact, whatever
        was on screen before. */
    method SelectContact(id: string)
      modifies this`selected, this`messages
      ensures selected == Some(id)
      ensures ActiveContact().None? ==> messages == []
      ensures ActiveContact().Some? ==> messages == db.GetMessages(me, id)
    {
      selected := Some(id);
      messages := [];
      FetchMessages();
    }

    /** `handleSend`: with blank input or no active contact nothing happens;
        otherwise the untrimmed text is stored as a message to the active
        contact, the optimistic entry is appended to the screen and the
        input is cleared. */
    method HandleSend(now: nat)
      modifies this`messages, this`inputText, db`messages
      ensures Trim(old(inputText)) == [] || ActiveContact().None? ==>
        messages == old(messages) && inputText == old(inputText) && db.messages == old(db.messages)
      ensures Trim(old(inputText)) != [] && ActiveContact().Some? ==>
        var other := ActiveContact().value.Id();
        && db.messages == old(db.messages) + [DirectMessage(MessageId(now), me, other, old(inputText), now, false)]
        && messages == old(messages) + [Optimistic(me, other, old(inputText), now)]
        && inputText == ""
    {
      var contact := ActiveContact();
      if Trim(inputText) == [] || contact.None? {
        return;
      }
      var other := contact.value.Id();
      var _ := db.SendMessage(me, other, inputText, now);
      messages := messages + [Optimistic(me, other, inputText, now)];
      inputText := "";
    }
  }
}
