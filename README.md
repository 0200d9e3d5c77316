# Art studio portal: a Dafny model of the store and the portal's rules

The portal of a children's art studio lets parents, teachers and an
administrator sign in. Parents follow their child's daily logs, attendance,
skill chart and announcements. Teachers keep their students' logs and see a
class histogram. Parents and teachers talk in a chat. Everything lives in an
in-memory store (`services/database.ts`). That store is the centre of this
model:

- six collections: students, teachers, logs, announcements, artworks and
  direct messages;
- the queries over those collections;
- the commands that append, prepend and merge-update records;
- the demo password check;
- one tick of the presence simulator, which flips a student's and a
  teacher's online flag.

Around the store, the model covers the rules of the pages (`App.tsx`) that
decide something:

- the chat screen as a state machine, with its length-based poll merge and
  its optimistic send;
- the student toggle and the empty-selection guard of the log form;
- the tab a portal path highlights;
- the case-insensitive name searches;
- the attendance list, cut at fifteen dates;
- the role-gated portal routes, with login, logout and profile update.

It also covers the two chart computations (`components/Charts.tsx`) and the
accent colour of a log card (`components/DailyLogCard.tsx`).

Files:

- `types.dfy` holds the records.
- `sequences.dfy` holds `filter`, `findIndex`, `find` and the stable sort.
- `text.dfy` holds `trim`, ASCII `toLowerCase`, `includes`, decimal rendering and the UTF-16 length and last code unit.
- `database.dfy` holds the store: the pure queries, plus the class
  `Database` whose methods change its fields.
- `chat.dfy` holds the chat screen as the class `ChatPage`.
- `app_rules.dfy` holds the page rules and the class `App`.
- `charts.dfy` and `daily_log_card.dfy` hold the chart and colour computations.

The clock is a parameter `now`, in milliseconds. Date-only fields take the
current date as a parameter `today`. A timer callback is one call of the
method that models it.

## Model

| member | source | states |
|---|---|---|
| Sequences.SortBy | services/database.ts:247 | the sort is a permutation, ascending by timestamp, and keeps equal timestamps in input order (the stable `Array.prototype.sort`) |
| Text.TrimEmptyIffBlank | App.tsx:393 | `!inputText.trim()` holds exactly when every character is ECMAScript white space |
| Text.Includes | App.tsx:419 | `includes` holds exactly when the term occurs as a contiguous run at some index |
| MockDatabase.StudentIndex | services/database.ts:301 | -1 exactly when no student has the id; otherwise the first index holding it |
| MockDatabase.TeacherIndex | services/database.ts:310 | -1 exactly when no teacher has the id; otherwise the first index holding it |
| MockDatabase.StudentById | services/database.ts:229 | nothing exactly when no student has the id; otherwise the first student with it |
| MockDatabase.TeacherById | services/database.ts:214 | nothing exactly when no teacher has the id; otherwise the first teacher with it |
| MockDatabase.LogsFor | services/database.ts:232 | exactly the logs naming the student, each as often as in the store, in store order |
| MockDatabase.AnnouncementsFor | services/database.ts:234-237 | exactly the broadcasts (no recipient or an empty one) and the announcements addressed to the viewer, each as often as in the store, in store order |
| MockDatabase.ArtworksFor | services/database.ts:238 | exactly the student's artworks, each as often as in the store, in store order |
| MockDatabase.Conversation | services/database.ts:243-248 | exactly the messages between the two users in either direction, with multiplicity, ascending by timestamp, with ties in store order |
| MockDatabase.ConversationSymmetric | services/database.ts:244-246 | the conversation is the same whichever party asks |
| MockDatabase.ConversationAfterSend | services/database.ts:243-261 | with a clock that has not gone backwards, a sent message becomes the last entry of its conversation and leaves every other conversation unchanged |
| MockDatabase.LogsForPrepend | services/database.ts:270 | a new log heads the list of every student it names and leaves the other lists unchanged |
| MockDatabase.AnnouncementsForPrepend | services/database.ts:285 | a new announcement heads the list of every viewer allowed to see it and of no one else |
| MockDatabase.ArtworksForPrepend | services/database.ts:296 | a new artwork heads its owner's gallery only |
| MockDatabase.BroadcastReachesEveryone | services/database.ts:236 | an announcement without a recipient is seen by every viewer, signed in or not |
| MockDatabase.Authenticate | services/database.ts:205-220 | a wrong password gives nothing; a parent or teacher login succeeds exactly when the id exists, and gives the first record with it; an admin login gives the admin record for any id; a guest gets nothing |
| MockDatabase.DemoLogin | services/database.ts:208-212 | the seeded parent id with password 1234 yields Aarav Sharma's record; any other password yields nothing |
| MockDatabase.MergeStudent | services/database.ts:303 | for each of the eleven fields, a value the patch supplies overrides and an absent one keeps the record's value; the empty patch changes nothing |
| MockDatabase.MergeTeacher | services/database.ts:312 | for each of the seven fields, a value the patch supplies overrides and an absent one keeps the record's value; the empty patch changes nothing |
| MockDatabase.MergeStudentIdempotent | services/database.ts:303 | applying the same patch twice equals applying it once |
| MockDatabase.ProfilePatchTouchesNameAndImage | App.tsx:1039 | the profile editor's update changes the name and the picture and nothing else |
| MockDatabase.FlipStudent | services/database.ts:187-190 | the flag is negated (an absent flag counts as offline); `lastSeen` becomes `now` exactly when the student goes offline; no other field changes |
| MockDatabase.FlipTeacher | services/database.ts:194-197 | as for a student |
| MockDatabase.FlipTwice | services/database.ts:187 | two flips restore a set flag; an absent flag ends up offline |
| MockDatabase.Database.constructor | services/database.ts:175-180 | the store starts with the seeded collections |
| MockDatabase.Database.Login | services/database.ts:205-220 | `login` is `Authenticate` over the records the store holds now |
| MockDatabase.Database.GetStudentById | services/database.ts:229 | `StudentById` over the current students |
| MockDatabase.Database.GetAllStudents | services/database.ts:230 | the current students, in store order |
| MockDatabase.Database.GetAllTeachers | services/database.ts:231 | the current teachers, in store order |
| MockDatabase.Database.GetLogsForStudent | services/database.ts:232 | `LogsFor` over the current logs |
| MockDatabase.Database.GetAllLogs | services/database.ts:233 | the current logs, newest first |
| MockDatabase.Database.GetAnnouncements | services/database.ts:234-237 | `AnnouncementsFor` over the current announcements |
| MockDatabase.Database.GetArtworksForStudent | services/database.ts:238 | `ArtworksFor` over the current artworks |
| MockDatabase.Database.GetMessages | services/database.ts:243-248 | `Conversation` over the current messages |
| MockDatabase.Database.ChangePassword | services/database.ts:222-226 | always reports success and changes nothing |
| MockDatabase.Database.SendMessage | services/database.ts:250-261 | appends one unread message stamped with the clock, with a `msg-` id, and returns it |
| MockDatabase.Database.AddLog | services/database.ts:264-272 | puts the draft with a `log-` id at the front; it heads the list of each student it names, and the other lists stay unchanged |
| MockDatabase.Database.AddStudent | services/database.ts:274-276 | appends the student |
| MockDatabase.Database.AddAnnouncement | services/database.ts:278-287 | puts an unread announcement dated today, with an `A-` id, at the front; it heads the list of each viewer who may see it |
| MockDatabase.Database.AddArtwork | services/database.ts:289-298 | puts the artwork, dated today, with an `ART-` id, at the front of its owner's gallery |
| MockDatabase.Database.UpdateStudent | services/database.ts:300-307 | an unknown id gives nothing and changes nothing; otherwise only the first matching record is replaced by its merge with the patch, which is returned |
| MockDatabase.Database.UpdateTeacher | services/database.ts:309-316 | as for students, over the teachers |
| MockDatabase.Database.PresenceTick | services/database.ts:184-198 | exactly the chosen student and the chosen teacher flip; every other record stays as it was |
| Text.DecimalReadsBack | services/database.ts:252 | the digits of `${n}` read back as `n` |
| Text.DecimalInjective | services/database.ts:252 | different clock values render differently, so ids built with the same prefix from different clock values differ |
| ChatView.Optimistic | App.tsx:396-403 | the optimistic entry has a `temp-` id, the sender, the receiver and the content as typed, and is unread |
| ChatView.TempIdsAreNotStoreIds | App.tsx:397 | an optimistic id never equals a stored message id |
| ChatView.PollMerge | App.tsx:373-376 | the result is always as long as the fetched list; a different length takes the fetched list, and an equal length keeps the list on screen |
| ChatView.PollMergeIdempotent | App.tsx:373-376 | a second poll against an unchanged store changes nothing |
| ChatView.OptimisticEntryPersists | App.tsx:371-403 | after a send, whatever the clock, polls keep the optimistic entry on screen instead of the stored message |
| ChatView.StaleConversationAfterSwitch | App.tsx:368-376 | two different conversations of equal length: the poll keeps the first one on screen |
| ChatView.ContactsFor | App.tsx:354 | a teacher's contacts are the students, everyone else's are the teachers, in store order |
| ChatView.TeacherContactsAreStudents | App.tsx:354 | a user is a contact exactly when they are a record of the other side |
| ChatView.ChatPage.ActiveContact | App.tsx:349 | nothing exactly when no contact has the selected id; otherwise the first contact with it |
| ChatView.ChatPage.FilteredContacts | App.tsx:419 | `SearchUsers` over the contacts with the current search term |
| ChatView.ChatPage.constructor | App.tsx:343-347 | the screen starts empty, with the route's contact selected |
| ChatView.ChatPage.FetchContacts | App.tsx:353-356 | the contacts become the other side's records |
| ChatView.ChatPage.OnChatIdChange | App.tsx:363-365 | a non-empty route id selects that contact; otherwise the selection stays |
| ChatView.ChatPage.SetInputText | App.tsx:530 | the input holds the typed text |
| ChatView.ChatPage.SetSearchTerm | App.tsx:434 | the search box holds the typed term |
| ChatView.ChatPage.FetchMessages | App.tsx:368-377 | without an active contact nothing changes; otherwise the screen becomes the poll merge of itself with the stored conversation |
| ChatView.ChatPage.SelectContactAsWritten | App.tsx:414-417 | selecting a contact polls at once but merges against the previous contact's messages |
| ChatView.ChatPage.SelectContact | App.tsx:414-417 | selecting a known contact shows exactly the conversation with it |
| ChatView.ChatPage.HandleSend | App.tsx:392-405 | blank input or no active contact changes neither the store nor the screen; otherwise one stored message and one optimistic entry with the untrimmed text are added, and the input is cleared |
| AppRules.SearchUsers | App.tsx:419 | exactly the contacts whose lower-cased name contains the lower-cased term, each as often as in the list, in list order |
| AppRules.SearchStudents | App.tsx:1126 | exactly the students whose lower-cased name contains the lower-cased term, each as often as in the list, in list order |
| AppRules.EmptyTermMatches | App.tsx:419 | every name contains the empty term |
| AppRules.EmptySearchKeepsAllUsers | App.tsx:419 | an empty search shows every contact |
| AppRules.EmptySearchKeepsAllStudents | App.tsx:1126 | an empty search shows every student |
| AppRules.SearchIgnoresTermCase | App.tsx:1126 | the term's letter case does not change the result |
| AppRules.ToggleStudent | App.tsx:1187-1189 | a selected id is removed, every occurrence of it; an unselected id is appended; the other ids keep their order and multiplicity |
| AppRules.ToggleKeepsDistinct | App.tsx:1187-1189 | a duplicate-free selection stays duplicate-free |
| AppRules.ToggleTwice | App.tsx:1187-1189 | toggling twice restores membership, and restores the selection itself when the id was not selected |
| AppRules.DraftOf | App.tsx:1180-1183 | the draft carries each of the form's seven fields unchanged, the selection as its student ids, and no teacher note |
| AppRules.SubmitLog | App.tsx:1176-1185 | with no student selected nothing is stored; otherwise exactly one log naming the selection goes to the front |
| AppRules.FirstMatchingTab | App.tsx:646-652 | the tab of the first rule that has a fragment in the path; nothing exactly when no rule matches |
| AppRules.ActiveTab | App.tsx:646-652 | the if-chain yields the first matching tab in priority order, or the dashboard |
| AppRules.MessagesHighlightStudents | App.tsx:646-647 | a messages path highlights the students tab |
| AppRules.ProfileTabFollowsRole | App.tsx:646-649 | a `/profile` or `/teacher-profile` path highlights the parent's or the teacher's profile tab, by role |
| AppRules.NoFragmentMeansDashboard | App.tsx:645-651 | a path with no fragment highlights the dashboard |
| AppRules.AttendanceDates | App.tsx:220 | one date per log, in log order |
| AppRules.Attendance | App.tsx:311-320 | no list exactly when there are no dates; at most fifteen dates, taken from the front; a "+N more" note exactly when there are more than fifteen; shown plus N equals the total |
| AppRules.AttendanceShowsAsManyAsFit | App.tsx:313 | short histories are listed in full; long ones show exactly fifteen |
| AppRules.PortalGuard | App.tsx:1347-1372 | a portal renders exactly when the session's role is its role and a user is present; otherwise it redirects to the login page |
| AppRules.OnePortalPerRole | App.tsx:1347-1372 | a signed-in user reaches exactly the portal of their role, and a guest reaches none |
| AppRules.App.Route | App.tsx:1347-1372 | a portal's route renders that portal exactly when the session's role is its role and a user is present, and otherwise redirects to the login page |
| AppRules.App.constructor | App.tsx:1319-1320 | the session starts as a guest without a user |
| AppRules.App.HandleLogin | App.tsx:1322-1325 | the session takes the role and the user, and exactly that role's portal renders |
| AppRules.App.HandleLogout | App.tsx:1327-1331 | guest, no user, location `/login`; every portal redirects |
| AppRules.App.HandleUserUpdate | App.tsx:1333-1335 | the user is replaced; a signed-in user keeps reaching the same portal |
| Text.Utf16Length | components/Charts.tsx:15 | `length` counts UTF-16 code units: the characters plus one per character outside the Basic Multilingual Plane; so between one and two per character, and one per character exactly when none is outside that plane |
| Text.Utf16LengthAppend | components/Charts.tsx:15 | the UTF-16 length of a concatenation is the sum of the lengths |
| Text.EmojiCountsTwice | components/Charts.tsx:15 | two names of two characters each, one with an emoji, have UTF-16 lengths 2 and 3 |
| Charts.SkillScores | components/Charts.tsx:15-21 | seeded by the UTF-16 length of the name: five scores in fixed subject order, within [80,94], [70,94], [60,94], [85,94] and [90,94], each at most the full mark 100 |
| Charts.ScoresDependOnlyOnNameLength | components/Charts.tsx:15 | students whose names have the same UTF-16 length get the same chart |
| Charts.LevelLabelInjective | components/Charts.tsx:52 | different levels get different labels |
| Charts.CountLevel | components/Charts.tsx:53 | the count of a level is positive exactly when some student is at it |
| Charts.LevelsInOrder | components/Charts.tsx:50-56 | exactly the occurring levels, each once |
| Charts.LevelsInFirstAppearanceOrder | components/Charts.tsx:53-56 | the levels are ordered by the index of their first student |
| Charts.ClassDistribution | components/Charts.tsx:50-56 | the loop over the dictionary yields one entry per occurring level, in first-appearance order, each with its student count |
| Charts.HistogramTotal | components/Charts.tsx:50-54 | the counts add up to the number of students |
| Charts.HistogramCoversOccurringLevels | components/Charts.tsx:51-56 | a level has an entry exactly when some student is at it |
| Charts.HistogramLabelsUnique | components/Charts.tsx:56 | no level has two entries |
| Charts.HistogramCountsPositive | components/Charts.tsx:53 | every count is at least one |
| Text.LastCodeUnit | components/DailyLogCard.tsx:11 | the last UTF-16 code unit of a character: the character itself inside the Basic Multilingual Plane, a low surrogate outside it |
| DailyLogCard.ColorIndex | components/DailyLogCard.tsx:11 | no index exactly for the empty id; otherwise the last UTF-16 code unit of the id modulo the number of colours, below that number |
| DailyLogCard.BorderColor | components/DailyLogCard.tsx:9-13 | no colour for the empty id; otherwise the border colour at the id's last UTF-16 code unit modulo 5 |
| DailyLogCard.TextColor | components/DailyLogCard.tsx:15-19 | no colour for the empty id; otherwise the text colour at the id's last UTF-16 code unit modulo 5 |
| DailyLogCard.ColorsCorrespond | components/DailyLogCard.tsx:9-19 | for a non-empty id, the border and the text are the colours at the position `ColorIndex` gives |
| DailyLogCard.SameLastCharSameColors | components/DailyLogCard.tsx:11-17 | ids with the same last character get the same colours |
| DailyLogCard.SeedLogColors | components/DailyLogCard.tsx:9-19 | the seeded logs `log-1` and `log-2` get violet and cobalt |

## Left out

- Timers are not modelled: the presence interval (services/database.ts:183-199) and the contact and message polls (App.tsx:358-359, App.tsx:380-382). Their scheduling and cleanup are left out; each callback is one method call.
- The artificial delays of `login`, `changePassword`, `addLog` and `addArtwork` are not modelled; each call is one synchronous step.
- `Math.random` in the presence simulator is not modelled: the chosen indices are parameters.
- MockDatabase.Database.PresenceTick: requires both indices in range. On an empty collection the source would read `undefined` and throw; that case is not modelled.
- Clocks and dates are not modelled as such. `Date.now()` and ISO timestamps are integer milliseconds. The date part of `toISOString()` is the parameter `today`. Locale formatting (`formatLastSeen`, `toLocaleTimeString`, `toLocaleDateString`) is not modelled.
- Id uniqueness is not claimed: ids are a prefix and the clock, and two calls in the same millisecond collide. Only different clock values are proved to give different ids.
- `getSyllabus` and `getGallery` return static catalogue data from constants.ts. That catalogue is not transcribed.
- `changePassword` only logs to the console. The model keeps its result and its empty effect.
- Aliasing is not modelled. The getters copy the arrays but share the record objects, and the presence tick mutates records in place, so earlier copies see the change. Dafny values do not alias, and the model claims nothing about it.
- MockDatabase.MergeStudent: a patch key present with the value `undefined` would overwrite the field with `undefined`. An `Option` patch cannot express that; the callers never send such keys.
- Text.Lower: lower-cases ASCII letters only, whereas `toLowerCase` also folds other scripts.
- JSX rendering is not modelled, and neither is scrolling.
- `navigate` after submitting a log (App.tsx:1184) or selecting a contact (App.tsx:416) is not modelled. The route change on selecting a contact is folded into `ChatView.ChatPage.SelectContactAsWritten`, which sets the selection that the new route id would set. The hash change on logout is the one navigation kept.
- The Enter-key binding that calls `handleSend` is not modelled.
- The last-message preview in the contact list (App.tsx:445-464) is not modelled.
- The login page's form and admin auto-login (App.tsx:824-870) are not modelled; the model keeps `login` itself and the shell's `handleLogin`.
- services/geminiService.ts is not part of this model.
- `FileReader` uploads, `console.log` and `alert` are not modelled. The rejected empty submission is modelled as "nothing stored".
- The optimistic entry's timestamp is the same integer clock as the stored message, not a separate ISO string.

## Findings

| source | as written | input that shows it | evidently intended | confidence | as-written member | corrected member |
|---|---|---|---|---|---|---|
| App.tsx:368-376 | When another contact is selected, the messages on screen are not cleared. The immediate poll keeps them whenever the new conversation has the same length. | One message with contact A is on screen. The user selects contact B, who also has exactly one message. The poll returns B's message, and the screen keeps A's. | After selecting a contact, the screen shows the conversation with that contact. | not executed; follows from the merge callback and the component staying mounted across `messages/:chatId` | ChatView.StaleConversationAfterSwitch | ChatView.ChatPage.SelectContact |

`ChatView.ChatPage.SelectContactAsWritten` models the selection as written. `ChatView.ChatPage.SelectContact` clears the screen before the immediate poll, and its contract proves that the screen then shows exactly the selected conversation.
