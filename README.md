# Students Freelance Platform — a verified model of its core

The platform is a skill marketplace. Students and mentors publish skills, and other users book sessions from them. The frontend keeps everything in the browser's `localStorage`:

- users and the signed-in user;
- skills and bookings;
- per-user notification lists.

Each booking has a chat panel. A small Socket.IO/MongoDB relay serves it.

This project models the logic under the UI, one Dafny module per source file:

| module | file | models |
|---|---|---|
| `Types` | `types.dfy` | the records, the twelve skill categories and the five booking statuses |
| `Collections` | `collections.dfy` | the JavaScript array operations the code is written with (`filter`, `find`, `some`, `map`-by-id), each proved once |
| `Text` | `text.dfy` | JavaScript truthiness of optional strings, `trim` with the ECMAScript whitespace set, ASCII `toLowerCase`, `includes` |
| `LocalStorage` | `storage.dfy` | the store as a class with one field per key; append (`saveX`) and merge-by-id (`updateX`) |
| `Auth` | `auth.dfy` | register and login over the users collection, with bcrypt abstracted to a `hash`/`verify` pair; class `AuthContext` |
| `Notifications` | `notifications.dfy` | the notification list, its dedup, mark-read, clear, unread count and the seen-bookings set; class `NotificationContext` |
| `BookingDashboard` | `bookings.dfy` | the booking tabs, the unchecked status action, and the gate of offered buttons |
| `Dashboard` | `dashboard.dfy` | skill lists, search and filter, and the add, edit, delete and book handlers; class `DashboardPage` |
| `ChatClient` | `chat_client.dfy` | the chat panel: optimistic append, the single echo-suppression flag, connection status; class `Chat` |
| `ChatServer` | `chat_server.dfy` | the relay: handshake defaults, rooms per booking, the message log, per-connection inboxes, history ordering; class `Relay` |

Some operations change state in place in the source. Those are class methods with `modifies` frames that name the fields they write. Each such method's `ensures` ties the new state to a pure step function, and the lemmas about those functions carry the properties.

Where the intended lifecycle and the code differ, the code is followed. The lifecycle as described lets a `confirmed` booking be cancelled. The code shows the cancel button only for a `pending` booking (`frontend/src/pages/BookingDashboard.tsx:144-160`), so `OfferedActions` offers it only there.

A status press does not make the booking page render again: the handler writes the store and shows a toast, and sets no state of the page. The buttons a user can press are therefore those of the card as last drawn, while the press changes the booking as stored now. `GatedRun` models a run of `Render` and `Press` events in that way. The timestamp invariant survives it, but a card left on screen can start a booking after its date, or confirm one that was just cancelled.

Inputs the model takes as parameters:

- fresh ids (`crypto.randomUUID`) are parameters;
- times (`new Date()`) are integer parameters;
- the outcome of a MongoDB save or query is a boolean parameter;
- bcrypt is a `Hasher` value, assumed sound (`verify(p, hash(p))`) only where a lemma needs it.

## Model

| member | source | states |
|---|---|---|
| Types.SkillCategoriesListsEachOnce | frontend/src/types/index.ts:10-37 | `SKILL_CATEGORIES` has 12 entries, contains every category and lists none twice |
| LocalStorage.Store.GetUsers | frontend/src/utils/localStorage.ts:3-5 | an absent `users` key reads as the empty collection |
| LocalStorage.Store.GetSkills | frontend/src/utils/localStorage.ts:13-15 | an absent `skills` key reads as the empty collection |
| LocalStorage.Store.GetBookings | frontend/src/utils/localStorage.ts:31-33 | an absent `bookings` key reads as the empty collection |
| LocalStorage.Store.SaveUser | frontend/src/utils/localStorage.ts:7-11 | the users key becomes the old collection with one record appended at the end; only that key is written |
| LocalStorage.Store.SaveSkill | frontend/src/utils/localStorage.ts:17-21 | the skills key becomes the old collection plus one record at the end; only that key is written |
| LocalStorage.Store.SaveBooking | frontend/src/utils/localStorage.ts:35-39 | the bookings key becomes the old collection plus one record at the end; only that key is written |
| LocalStorage.Store.UpdateSkill | frontend/src/utils/localStorage.ts:23-29 | the skills key becomes the merge of the patch into every record with the id; only that key is written |
| LocalStorage.Store.UpdateBooking | frontend/src/utils/localStorage.ts:41-47 | the bookings key becomes the merge of the patch into every record with the id; only that key is written |
| LocalStorage.UpdateSkills | frontend/src/utils/localStorage.ts:25-27 | same length; a record with the id gets every patched field and keeps the others; other records are untouched |
| LocalStorage.UpdateBookings | frontend/src/utils/localStorage.ts:43-45 | same length; a record with the id gets every patched field and keeps the others; other records are untouched |
| LocalStorage.UpdateSkillsKeepsIds | frontend/src/utils/localStorage.ts:23-29 | an update that does not patch `id` keeps the sequence of ids |
| LocalStorage.UpdateBookingsKeepsIds | frontend/src/utils/localStorage.ts:41-47 | an update that does not patch `id` keeps the sequence of ids |
| LocalStorage.UpdateSkillsAbsentId | frontend/src/utils/localStorage.ts:25-27 | an update for an id no skill has leaves the collection identical |
| LocalStorage.UpdateBookingsAbsentId | frontend/src/utils/localStorage.ts:43-45 | an update for an id no booking has leaves the collection identical |
| LocalStorage.UpdateSkillsIdempotent | frontend/src/utils/localStorage.ts:25-27 | applying the same update twice equals applying it once |
| LocalStorage.UpdateBookingsIdempotent | frontend/src/utils/localStorage.ts:43-45 | applying the same update twice equals applying it once |
| Auth.EmailTaken | frontend/src/context/AuthContext.tsx:46 | true exactly when some user has the email |
| Auth.FindByEmail | frontend/src/context/AuthContext.tsx:30 | a found user is in the collection and has the email; nothing is found exactly when the email is not taken |
| Auth.LoginLookup | frontend/src/context/AuthContext.tsx:29-31 | a signed-in user is in the collection, has the email and the password verifies against its stored hash; an unknown email never signs in |
| Auth.LoginFindsTheOwner | frontend/src/context/AuthContext.tsx:30-31 | with unique emails, login with user k's email succeeds iff the password verifies against user k's hash, and yields user k |
| Auth.RegisterKeepsEmailsUnique | frontend/src/context/AuthContext.tsx:46-57 | appending a user whose email passed the duplicate check keeps emails unique |
| Auth.RegisterThenLogin | frontend/src/context/AuthContext.tsx:44-61 | right after registering, the same email and password log in as the new user, who stores `hash(password)`, no skills and no role |
| Auth.AuthContext.Restore | frontend/src/context/AuthContext.tsx:20-26 | the user saved under `currentUser` becomes the user, if any; loading ends |
| Auth.AuthContext.Login | frontend/src/context/AuthContext.tsx:28-37 | succeeds iff the first user with the email verifies; on success that user is current in memory and in the store; on failure nothing changes |
| Auth.AuthContext.Logout | frontend/src/context/AuthContext.tsx:39-42 | no user, in memory or in the store |
| Auth.AuthContext.Register | frontend/src/context/AuthContext.tsx:44-61 | fails and changes nothing iff the email is taken; otherwise appends the new user and makes it current; email uniqueness is preserved |
| Notifications.IsDuplicate | frontend/src/context/NotificationContext.tsx:78 | true exactly when the booking id is truthy and some entry carries it |
| Notifications.CountUnread | frontend/src/context/NotificationContext.tsx:118 | at most the list's length, and zero exactly when every entry is read |
| Notifications.MarkRead | frontend/src/context/NotificationContext.tsx:97-99 | same length; the entries with the id become read; every other entry is unchanged |
| Notifications.RelevantIds | frontend/src/context/NotificationContext.tsx:45-48 | contains the id of every booking in which the user teaches or learns |
| Notifications.AddDuplicateIsNoop | frontend/src/context/NotificationContext.tsx:78-80 | a booking id already in the list makes adding a no-op |
| Notifications.AddWithoutBookingAppends | frontend/src/context/NotificationContext.tsx:78-91 | without a truthy booking id, adding appends one unread entry, last, and keeps the existing entries |
| Notifications.AddCountsUnread | frontend/src/context/NotificationContext.tsx:76-118 | adding raises the unread count by one exactly when it is not a duplicate |
| Notifications.MarkReadCountsUnread | frontend/src/context/NotificationContext.tsx:96-118 | marking read never raises the unread count, and lowers it when the id names an unread entry |
| Notifications.MarkReadIdempotent | frontend/src/context/NotificationContext.tsx:96-99 | marking the same id read twice equals marking it once |
| Notifications.AddOverwritesRecipientList | frontend/src/context/NotificationContext.tsx:91-93 | the recipient's key receives the current user's list plus the new entry, so a stored entry of the recipient that the current list lacks is lost |
| Notifications.NotificationContext.LoadForUser | frontend/src/context/NotificationContext.tsx:32-37 | with a user, the in-memory list becomes that user's stored list (empty when absent); otherwise unchanged |
| Notifications.NotificationContext.CheckNewBookings | frontend/src/context/NotificationContext.tsx:43-66 | one poll adds exactly the ids of the bookings involving the user; the set never shrinks; nothing happens without a user |
| Notifications.NotificationContext.AddNotification | frontend/src/context/NotificationContext.tsx:76-94 | the list becomes the dedup-or-append of the old list; when not a duplicate it is written under the recipient's key and no other key changes |
| Notifications.NotificationContext.MarkAsRead | frontend/src/context/NotificationContext.tsx:96-104 | the list is marked read; it is written under the current user's key only when a user is signed in |
| Notifications.NotificationContext.ClearAllNotifications | frontend/src/context/NotificationContext.tsx:108-113 | with a user, list and key become empty; without one, nothing changes |
| Notifications.NotificationContext.UnreadCount | frontend/src/context/NotificationContext.tsx:118 | the count is at most the list's length and zero exactly when all are read |
| BookingDashboard.UserBookings | frontend/src/pages/BookingDashboard.tsx:21-23 | exactly the bookings in which the user is learner or teacher; none when nobody is signed in |
| BookingDashboard.UpcomingPastPartition | frontend/src/pages/BookingDashboard.tsx:25-31 | with integer dates the two tabs together hold the user's bookings as a multiset, and each booking is on exactly one tab |
| BookingDashboard.CompletedAndCancelledTabs | frontend/src/pages/BookingDashboard.tsx:26-31 | a completed booking is only past; a cancelled booking dated now or later is only upcoming |
| BookingDashboard.OtherUserDetails | frontend/src/pages/BookingDashboard.tsx:33-37 | resolves the teacher when the user is the learner and the learner otherwise; none exactly when no user has that id |
| BookingDashboard.ActionEffect | frontend/src/pages/BookingDashboard.tsx:43-52 | the status becomes the target whatever it was; `startTime` is set only by `ongoing`, `endTime` only by `completed`; no other field changes |
| BookingDashboard.HandleBookingAction | frontend/src/pages/BookingDashboard.tsx:43-55 | the bookings key becomes the unchecked merge of the action's patch into the booking |
| BookingDashboard.StatusBadgeColor | frontend/src/pages/BookingDashboard.tsx:57-70 | total; the default colour is returned exactly for `confirmed` |
| BookingDashboard.BadgeColorsDistinct | frontend/src/pages/BookingDashboard.tsx:57-70 | the four statuses with their own case get four different colours |
| BookingDashboard.OfferedActions | frontend/src/pages/BookingDashboard.tsx:142-179 | a card never offers `pending`, and a card of the past tab offers nothing |
| BookingDashboard.ShownActions | frontend/src/pages/BookingDashboard.tsx:21-179 | a render draws a status button only for a booking the user teaches or learns in that is upcoming at the render; for such a booking it draws exactly the upcoming card's buttons |
| BookingDashboard.OfferedAreLegalEdges | frontend/src/pages/BookingDashboard.tsx:142-179 | an offered button appears only on the upcoming tab and is one of pending→confirmed, pending→cancelled, confirmed→ongoing, ongoing→completed; the pending ones only for the teacher |
| BookingDashboard.LegalEdgesAreOffered | frontend/src/pages/BookingDashboard.tsx:142-179 | each of the four edges is offered to the teacher on the upcoming tab; nothing is offered for completed or cancelled bookings |
| BookingDashboard.GatedActionKeepsTimes | frontend/src/pages/BookingDashboard.tsx:43-179 | a press on a freshly drawn card keeps the invariant that `startTime` is present iff ongoing or completed, and `endTime` iff completed |
| BookingDashboard.UncheckedActionBreaksTimes | frontend/src/pages/BookingDashboard.tsx:43-52 | the unchecked action can complete a pending booking, leaving an `endTime` without a `startTime` |
| BookingDashboard.StaleBookingShowsNoButton | frontend/src/pages/BookingDashboard.tsx:25-179 | a render made after a booking's date, or of a completed booking, draws no status button for it |
| BookingDashboard.StaleCardActionKeepsTimes | frontend/src/pages/BookingDashboard.tsx:43-179 | a press on a card drawn earlier, after any presses on it, keeps the timestamp invariant and leaves the booking at the drawn status or one of the card's targets |
| BookingDashboard.LateRendersMoveNothing | frontend/src/pages/BookingDashboard.tsx:25-179 | a page whose every render, and whose card on screen, was made after the booking's date never changes the booking |
| BookingDashboard.LateStartFromEarlierRender | frontend/src/pages/BookingDashboard.tsx:25-55 | a confirmed booking drawn on or before its date can still be started after it, because the date is checked at the render and not at the press |
| BookingDashboard.StaleCardRevivesCancelled | frontend/src/pages/BookingDashboard.tsx:43-161 | on a pending card left on screen the teacher can cancel and then confirm, so a cancelled booking comes back as confirmed |
| BookingDashboard.GatedRunKeepsTimes | frontend/src/pages/BookingDashboard.tsx:17-179 | any sequence of renders and presses, each press on a button of the card as last drawn and applied to the booking as stored now, keeps the timestamp invariant |
| Dashboard.SkillsPartition | frontend/src/pages/Dashboard.tsx:31-32 | `userSkills` and `otherSkills` split the skills by owner, as a multiset and by membership |
| Dashboard.FilteredSkills | frontend/src/pages/Dashboard.tsx:34-39 | a skill is shown iff it is another user's, the lower-cased query occurs in its lower-cased title or description, and the category is `all` or its own |
| Dashboard.EmptySearchShowsAll | frontend/src/pages/Dashboard.tsx:34-39 | an empty query over all categories shows every other user's skill, in order |
| Dashboard.AuthorName | frontend/src/pages/Dashboard.tsx:41-44 | the name of the first user with the id, or `Unknown Author` when that name is empty or no user has the id |
| Dashboard.NewBookingIsPending | frontend/src/pages/Dashboard.tsx:82-89 | a new booking is pending, with the learner, the skill and its owner, and no timestamps |
| Dashboard.BookedSkillNeverSelf | frontend/src/pages/Dashboard.tsx:32-335 | a booking made from the filtered list never has the learner as the teacher |
| Dashboard.LifecycleScenario | frontend/src/pages/Dashboard.tsx:80-98 | a new booking confirmed, started and completed by its teacher, with the page drawn before each press and no later than the date, uses only drawn buttons and gets `startTime` at start and `endTime` at completion |
| Dashboard.EditKeepsIdentity | frontend/src/pages/Dashboard.tsx:63-68 | an edit takes title, description, rate and category and keeps `id` and `userId` |
| Dashboard.DeleteSkillSpec | frontend/src/pages/Dashboard.tsx:111-114 | deletion removes every skill with the id, keeps every other skill and their order, and is the identity for an absent id |
| Dashboard.DashboardPage.VisibleSkills | frontend/src/pages/Dashboard.tsx:31-39 | every skill shown is in the store and not owned by the signed-in user |
| Dashboard.DashboardPage.HandleAddSkill | frontend/src/pages/Dashboard.tsx:46-58 | with a user, appends a skill owned by that user with the form's fields and resets the form; otherwise nothing changes |
| Dashboard.DashboardPage.HandleEditSkill | frontend/src/pages/Dashboard.tsx:60-73 | with a skill being edited, merges its four edited fields into the store and closes the editor; otherwise nothing changes |
| Dashboard.DashboardPage.HandleSkillClick | frontend/src/pages/Dashboard.tsx:100-103 | the clicked skill, never the user's own, opens in the detail modal |
| Dashboard.DashboardPage.BookNow | frontend/src/pages/Dashboard.tsx:75-78 | the detail modal's skill becomes the skill to book and the booking modal opens |
| Dashboard.DashboardPage.ConfirmBooking | frontend/src/pages/Dashboard.tsx:80-98 | nothing unless user, skill and date are all present; then one pending booking is appended, the in-memory list gets the teacher's notification unless the new id is already there, the teacher's key is written only in that case and otherwise the stored lists are unchanged, and the modal resets |
| Dashboard.DashboardPage.HandleDeleteSkill | frontend/src/pages/Dashboard.tsx:111-117 | the skills key becomes the collection without that id; the editor closes |
| Text.Trim | frontend/src/components/Chat.tsx:87-92 | the result is no longer than the input, starts and ends with no whitespace, and is empty exactly when the input is all whitespace |
| Text.TrimIsSlice | frontend/src/components/Chat.tsx:92 | the trimmed text is one contiguous slice of the input with only whitespace dropped on either side |
| Text.Includes | frontend/src/pages/Dashboard.tsx:35-36 | true exactly when the needle occurs at some position of the haystack |
| ChatClient.EffectiveRole | frontend/src/components/Chat.tsx:46-94 | a user without a role is sent as `student` |
| ChatClient.SendEffect | frontend/src/components/Chat.tsx:85-104 | a blank input, no user or no socket make send a no-op; otherwise exactly one message with the trimmed, non-empty input, sent as the user, is appended, the input clears and the flag is set |
| ChatClient.SendButtonImpliesGuard | frontend/src/components/Chat.tsx:87-148 | an enabled send button implies the handler's guard and an enabled input |
| ChatClient.ReceiveEffect | frontend/src/components/Chat.tsx:67-73 | an incoming message is appended iff the flag is clear, and the flag is clear afterwards |
| ChatClient.OwnEchoShownOnce | frontend/src/components/Chat.tsx:67-99 | the echo of one's own message right after sending is dropped, so the message shows once |
| ChatClient.ForeignMessageBeforeEchoIsLost | frontend/src/components/Chat.tsx:67-99 | after a send, another member's message arriving before the echo is dropped and the echo is shown beside the optimistic copy |
| ChatClient.TwoSendsOneSuppression | frontend/src/components/Chat.tsx:67-99 | two quick sends set the flag once: only one echo is suppressed |
| ChatClient.Chat.Mount | frontend/src/components/Chat.tsx:29-50 | with a user the socket opens with booking, user id and role (default `student`); without one nothing happens |
| ChatClient.Chat.LoadHistory | frontend/src/components/Chat.tsx:33-40 | a fetched history replaces the list wholesale; the relay's 500 error body is stored as the list and leaves the panel broken; only a network failure changes nothing |
| ChatClient.Chat.OnSocketEvent | frontend/src/components/Chat.tsx:52-62 | `connect`, `disconnect` and `connect_error` set connected, disconnected and failed |
| ChatClient.Chat.OnInputChange | frontend/src/components/Chat.tsx:138-145 | typing is only possible while connected and replaces the input |
| ChatClient.Chat.OnChatMessage | frontend/src/components/Chat.tsx:67-73 | the panel's view changes as the receive step says |
| ChatClient.Chat.HandleSendMessage | frontend/src/components/Chat.tsx:85-104 | the panel's view changes as the send step says, and the emitted message is the optimistic copy exactly when the guard passes |
| ChatServer.SessionOf | server/server.js:57-61 | missing handshake parameters default to `test-booking`, `test-user` and `test`; a present booking id is kept |
| ChatServer.Deliver | server/server.js:72-115 | every target connection gets the event appended; every other connection's inbox is unchanged |
| ChatServer.ConnectKeepsValid | server/server.js:55-72 | a connection keeps the room invariant: every connection sits in its booking's room and every room member belongs to that booking |
| ChatServer.DisconnectKeepsValid | server/server.js:113-116 | a disconnection keeps the room invariant |
| ChatServer.MessageKeepsValid | server/server.js:75-102 | a chat message, accepted or rejected, keeps the room invariant |
| ChatServer.TypingKeepsValid | server/server.js:105-110 | a typing event keeps the room invariant |
| ChatServer.ConnectNotifiesOthersOnly | server/server.js:69-72 | the newcomer joins the room and gets nothing; every other member of that booking gets `user-connected`; nobody else gets anything |
| ChatServer.DeliveredMessage | server/server.js:83-97 | a valid, saved message is logged once with the connection's booking id and the server's time; every room member, the sender included, gets it with that timestamp; nobody else gets anything |
| ChatServer.RejectedMessage | server/server.js:78-101 | a falsy `content` or `senderId`, or a failed save, logs nothing and broadcasts nothing; only the sender gets `error` |
| ChatServer.TypingReachesOthersOnly | server/server.js:105-110 | `typing` reaches the other members of the room, not the typist and nobody outside the room |
| ChatServer.DisconnectNotifiesOthersOnly | server/server.js:113-116 | the connection leaves; the remaining members get `user-disconnected`; nobody else gets anything |
| ChatServer.TwoClientScenario | server/server.js:55-102 | two clients join one booking and one says hello: the other receives exactly that message with the server's time, and the log holds it once |
| ChatServer.InsertKeepsMessages | server/server.js:46 | inserting into the sorted history adds exactly that message |
| ChatServer.InsertKeepsSorted | server/server.js:46 | inserting keeps ascending timestamp order |
| ChatServer.SortByTime | server/server.js:46 | the result is in ascending timestamp order and is a permutation of the input |
| ChatServer.History | server/server.js:43-47 | only the booking's messages, in ascending timestamp order, a permutation of the booking's log entries |
| ChatServer.HistoryHasAll | server/server.js:46 | every logged message of the booking is in its history |
| ChatServer.Relay.Emit | server/server.js:72-115 | emitting to a set of connections delivers to each, one at a time |
| ChatServer.Relay.OnConnection | server/server.js:55-72 | the relay's state changes as the connect step says, and the room invariant is kept |
| ChatServer.Relay.OnChatMessage | server/server.js:75-102 | the relay's state changes as the message step says, and the room invariant is kept |
| ChatServer.Relay.OnTyping | server/server.js:105-110 | the relay's state changes as the typing step says, and the room invariant is kept |
| ChatServer.Relay.OnDisconnect | server/server.js:113-116 | the relay's state changes as the disconnect step says, and the room invariant is kept |
| ChatServer.Relay.GetMessages | server/server.js:43-52 | a 500 exactly when the query fails; otherwise a permutation of the booking's logged messages, each as often as logged, in ascending timestamp order |

## Left out

- `frontend/src/components/VideoCall.tsx` is not part of this model. It only reaches media devices and WebRTC, and its signalling is a stub.
- `Navbar.tsx`, `Notifications.tsx` and `App.tsx` are not part of this model. They are pure UI and routing.
- JSX markup, CSS classes, toasts, `date-fns` formatting, scrolling and the capitalised action text are left out. They are presentation only.
- `JSON.parse`/`JSON.stringify` are the identity on records. A corrupt stored value, which would throw, is not modelled.
- Dates are integers. An unparseable date string makes `new Date(...)` NaN, which fails both date comparisons, so such a booking sits on neither tab unless it is completed; a completed one is on the past tab. The partition lemma holds only for the integer dates modelled here.
- A skill's `rate` is an integer. The form reads it with `Number(...)`, so the source also admits fractional rates (and NaN).
- The 30-second `setInterval` around `checkNewBookings` is left out. One call of the method models one tick.
- Socket.IO reconnection, CORS, the HTTP server, the Mongoose connection and schema coercion are left out. The value sent as `userType` is dropped from the stored document, as the schema lacks it.
- The relay's unused `chatRooms` map is left out.
- The relay's log is one sequence of messages that each carry their booking id. It is not a map from booking to sequence; history filters it by booking.
- Text.Lower: only ASCII letters are lower-cased; Unicode case mapping is not modelled.
- Auth.Hasher: bcrypt's salt randomness and cost factor are not modelled. A hash is a function of the password, and `verify(p, hash(p))` is the only property assumed.
- The async timing between the history fetch and the optimistic append in `Chat.tsx` is not modelled. History arrives as one `LoadHistory` step at any point.
- The chat panel's unmount cleanup (`socket.disconnect()`) is not modelled.
- ChatClient.Chat.LoadHistory: after the error body the model only records that the list is broken; the render error that follows, and what the panel's handlers then do, are not modelled.
- ChatClient.Chat.LoadHistory: the history documents carry no `id` and no `userType`, unlike the panel's `Message`; the model treats them as messages all the same.
- ChatServer.SortByTime: MongoDB leaves the order of equal timestamps unspecified; the model keeps log order for ties, and its contract states only ascending order and permutation.
- LocalStorage.ApplyBookingPatch: a patch cannot remove `startTime` or `endTime`, because a missing key keeps the record's value. No caller sends an explicit `undefined`, so nothing depends on it.
- BookingDashboard.HandleBookingAction: the action's type admits every status but `pending`, so `pending` is excluded by a precondition.
- BookingDashboard.GatedRun: one booking is followed, and the page is taken to show the tab the booking is listed on; a card on the other tab draws fewer buttons than `ShownActions` allows. What makes the page render (a tab, chat or video click, a change of user) is not modelled: a render is an event that may come at any time, and press times are not ordered after it.
- The commented-out duplicates in `BookingDashboard.tsx` (lines 254-470) and `Chat.tsx` (lines 161-301) are dead code and are not modelled.
- The `typing` handler relays whatever payload it receives; the model takes a boolean.
