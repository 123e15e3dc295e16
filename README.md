# Collaborative interview rooms: a verified model

This project models the in-memory room server of the coding-interview platform
(`02-codinginterviewplatform/backend/server.js`). Clients create a room over HTTP
and join it over a socket. Once joined, they share one code buffer and one
language tag. Every edit, language change and cursor move is fanned out to the
other members. When a room's last member leaves, a timer is armed that is meant
to delete the room if it is still empty when the timer fires. As written, that
timer's callback throws, and the uncaught exception ends the server process
(see Findings).

The model is imperative, as the server is:

- `Server.Server` is a class with the three pieces of mutable state.
  - `rooms` is the `rooms` Map.
  - `bound` holds each joined connection's `currentRoom` and `username`.
  - `pending` holds the armed cleanup timers, in arming order.
- Each socket handler is a method. It updates those fields and returns the
  events it emits as a list of `(recipient, event)` pairs. Recipients are
  computed from the room's `users`:
  - the joiner alone;
  - every member but the sender (`socket.to(room)`);
  - every member (`io.to(room)`).
- The HTTP handlers `GET /api/rooms/:roomId` and `GET /api/health` are read-only
  functions.
- A timer firing is the explicit step `FireCleanup`.

The integration tests (`integration.test.js`) run an inline copy of the same
handlers. That copy differs from the server in three ways:

- it seeds a shorter default code;
- it registers no `cursor-update` handler;
- it arms no cleanup.

The model covers it with the same class, constructed with
`Deployment.TestHarness` instead of `Deployment.Production`. `DefaultCode` holds
both welcome texts. The module `Scenarios` replays each test session against a
fresh server and states what the test observes.

Modules:

- `Rooms` (rooms.dfy): the data model (`Member`, `Room`, `Session`), the `users`
  filter, display-name resolution, and the registry invariant `Consistent` with
  the lemmas that each transition keeps it. The invariant says:
  - a room is stored under its own 8-character id;
  - no room lists a connection twice;
  - every bound connection is listed in its room under its name;
  - every listed member is bound to that room.
- `Events` (events.dfy): the outbound events and the fan-out functions `Others`
  and `Broadcast`.
- `Cleanup` (cleanup.dfy): what a firing timer does. `Reap` is the intended
  behaviour, which the server uses. `CleanupAsWritten` is the callback as it is
  actually written (see Findings).
- `Server` (server.dfy): the class and its handlers.
- `Scenarios` (scenarios.dfy): the integration tests' sessions, plus sessions
  for the cleanup timer and the unguarded second join.

Three behaviours of the code are kept as written:

- **A second `join-room` from a bound connection is not refused.** The
  connection is appended to the new room and rebound, and it keeps its entry in
  the old room. `JoinRoom` therefore has no precondition on the connection. It
  preserves the invariant only when the connection is unbound.
  `Scenarios.RejoinLeavesOrphan` shows the stranded entry in another room.
  `Scenarios.RejoinSameRoom` shows a second join into the same room. The
  server lists the connection twice and counts two users, but socket.io still
  delivers each room-wide event to it once, because a socket belongs to a
  room's channel at most once. The model sends such events twice, because it
  computes recipients from `users` (see "## Left out").
- **Generated display names are not always distinct.** They are `User-`
  followed by the first four characters of the connection id. Two connections
  get the same generated name exactly when their ids share that prefix (see
  `Rooms.FallbackNamesEqualIff`).
- **Cleanup fires in arming order.** Every timer has the same one-hour delay.
  The model keeps armed timers in a list rather than a set, so a stale timer
  that finds its room occupied does not cancel a timer armed later for the same
  room.

## Model

| member | source | states |
|---|---|---|
| `Rooms.NewRoom` | 02-codinginterviewplatform/backend/server.js:27-33 | a created room carries the given id and code, language `javascript`, and lists nobody |
| `Rooms.Joined` | 02-codinginterviewplatform/backend/server.js:81 | after the push, the newcomer's id is listed last, every earlier member keeps their place, and id, code and language are unchanged |
| `Rooms.Left` | 02-codinginterviewplatform/backend/server.js:145 | after the filter, the leaving connection is no longer listed, every other member still is, id, code and language are unchanged, and a connection that was not listed leaves the room as it was |
| `Rooms.Without` | 02-codinginterviewplatform/backend/server.js:145 | the filtered list holds exactly the members of the old list whose id differs from the leaving connection, and is no longer |
| `Rooms.WithoutConcat` | 02-codinginterviewplatform/backend/server.js:145 | filtering distributes over concatenation, so the remaining members keep their relative order |
| `Rooms.WithoutAbsent` | 02-codinginterviewplatform/backend/server.js:145 | filtering out an id that is not listed leaves the list unchanged |
| `Rooms.WithoutDistinct` | 02-codinginterviewplatform/backend/server.js:145 | filtering a list without duplicate ids yields a list without duplicate ids |
| `Rooms.DisplayName` | 02-codinginterviewplatform/backend/server.js:78 | the resolved name is never empty; it is the supplied name when that is non-empty, otherwise `User-` and the first (up to) four characters of the connection id |
| `Rooms.FallbackNamesEqualIff` | 02-codinginterviewplatform/backend/server.js:78 | two connections get the same generated name if and only if their ids agree on the first four characters |
| `Rooms.Consistent` | 02-codinginterviewplatform/backend/server.js:65-81 | the registry invariant: each room is keyed by its own 8-character id and lists no connection twice, each bound connection (`currentRoom`, `username`) is listed under its name in its room, and each listed member is bound to that room; under it, a bound connection's room is present and non-empty |
| `Rooms.BoundListedOnlyInOwnRoom` | 02-codinginterviewplatform/backend/server.js:77-81 | under the invariant, a connection listed in a room is bound, and bound to that room |
| `Rooms.CreateKeepsConsistent` | 02-codinginterviewplatform/backend/server.js:26-33 | inserting a fresh, empty room under a fresh 8-character id keeps the registry invariant |
| `Rooms.JoinKeepsConsistent` | 02-codinginterviewplatform/backend/server.js:77-81 | appending an unbound connection to a room and binding it there keeps the invariant, in particular no duplicate ids in `users` |
| `Rooms.EditKeepsConsistent` | 02-codinginterviewplatform/backend/server.js:105-119 | replacing a room's code or language keeps the invariant |
| `Rooms.LeaveKeepsConsistent` | 02-codinginterviewplatform/backend/server.js:141-145 | removing a bound connection from its room and unbinding it keeps the invariant |
| `Events.Others` | 02-codinginterviewplatform/backend/server.js:92-96 | the recipients of a sender-excluding broadcast are exactly the listed members other than the sender |
| `Events.OthersAreWithout` | 02-codinginterviewplatform/backend/server.js:92-96 | the members a sender-excluding broadcast reaches are exactly the ids of the list filtered as at line 145, in the same order |
| `Events.Broadcast` | 02-codinginterviewplatform/backend/server.js:121 | a broadcast addresses the same event to each recipient, one delivery per recipient, in order |
| `Events.OthersOfNewcomer` | 02-codinginterviewplatform/backend/server.js:92-96 | for a joiner who was not yet listed, "everyone but the joiner" is exactly the members who were there before, in join order |
| `Events.OthersOfNonMember` | 02-codinginterviewplatform/backend/server.js:148-152 | when the sender is no longer listed, the sender-excluding broadcast reaches every remaining member |
| `Cleanup.Reap` | 02-codinginterviewplatform/backend/server.js:155-163 | a firing timer removes its room only if that id is still present with no users, and leaves every other room, and every occupied room, untouched |
| `Cleanup.ReapIdempotent` | 02-codinginterviewplatform/backend/server.js:158-159 | a second firing for the same id changes nothing more |
| `Cleanup.ReapSparesOccupied` | 02-codinginterviewplatform/backend/server.js:158 | a room rejoined before its timer fires is left exactly as it is |
| `Cleanup.ReapKeepsConsistent` | 02-codinginterviewplatform/backend/server.js:155-163 | deleting an empty room keeps the registry invariant, because no connection is bound to it |
| `Cleanup.CleanupAsWritten` | 02-codinginterviewplatform/backend/server.js:156-161 | the callback as written: reading `currentRoom` resolves to the block's own `const`, which is not yet initialized, so a throw is always a ReferenceError; a run that did complete would hand `rooms.delete` a room object and leave the registry unchanged |
| `Cleanup.Settle` | 02-codinginterviewplatform/backend/server.js:156-162 | no handler for uncaught exceptions is installed: a callback that throws terminates the process, and one that completes leaves it serving the registry the callback produced |
| `Cleanup.AsWrittenAlwaysThrows` | 02-codinginterviewplatform/backend/server.js:156-161 | the callback as written throws a ReferenceError for every registry and every armed id, before it reads the registry |
| `Cleanup.AsWrittenTerminatesOnEmptiedRoom` | 02-codinginterviewplatform/backend/server.js:155-163 | when the timer for a room whose last member has left fires, the as-written callback ends the process with a ReferenceError, losing every room, while the intended step removes the empty room and the server keeps running |
| `Server.DefaultCode` | 02-codinginterviewplatform/backend/server.js:29 | the code a new room starts with: on the server the six-line template, in the test copy (integration.test.js:38) the welcome line alone; both start with the welcome line, and the server's is longer |
| `Server.Server.constructor` | 02-codinginterviewplatform/backend/server.js:22 | a server starts with no rooms, no bound connections, no armed timers, its deployment's default code, and the invariant |
| `Server.Server.CreateRoom` | 02-codinginterviewplatform/backend/server.js:25-37 | a fresh 8-character id becomes lookup-able with no users, language `javascript` and the default code; the room count grows by one; other rooms, bindings and timers are unchanged; the invariant is kept |
| `Server.Server.GetRoom` | 02-codinginterviewplatform/backend/server.js:40-54 | found if and only if the id is present, with the room's id, code, language and `userCount` equal to the length of `users` (and, under the invariant, the requested id); otherwise not found with `Room not found` |
| `Server.Server.Health` | 02-codinginterviewplatform/backend/server.js:57-59 | the reported count is the number of live rooms |
| `Server.Server.JoinRoom` | 02-codinginterviewplatform/backend/server.js:69-99 | unknown id: only an error `Room not found` to the joiner, registry and bindings unchanged; otherwise the joiner is appended at the end of `users` and bound under its resolved name, receives `room-state` with the code, language and updated list, and every other member receives `user-joined`; for an unbound joiner those are exactly the previous members, and the invariant is kept |
| `Server.Server.CodeChange` | 02-codinginterviewplatform/backend/server.js:102-111 | from a bound connection the room's code is replaced wholesale, language and users unchanged, and `code-update` with the sender's id goes to every member but the sender; from an unbound one nothing changes and nothing is sent |
| `Server.Server.LanguageChange` | 02-codinginterviewplatform/backend/server.js:114-123 | from a bound connection only the language is replaced and `language-update` goes to every member including the sender; from an unbound one nothing changes and nothing is sent |
| `Server.Server.CursorUpdate` | 02-codinginterviewplatform/backend/server.js:126-135 | changes no state; from a bound connection `cursor-move` with the sender's id, name, position and selection goes to every member but the sender (all bound to the same room); unbound, or in the test copy, nothing is sent |
| `Server.Server.Disconnect` | 02-codinginterviewplatform/backend/server.js:138-166 | every entry with the connection's id is removed from its room's `users`, code and language unchanged; `user-left` with the remaining list reaches exactly the remaining members; a timer is armed only when the list became empty (server only); the connection is unbound; the invariant is kept |
| `Server.Server.FireCleanup` | 02-codinginterviewplatform/backend/server.js:155-163 | the oldest armed timer fires: the registry becomes `Reap` of it for that id, later timers stay armed, bindings unchanged, the invariant is kept |
| `Scenarios.CreateThenGet` | 02-codinginterviewplatform/backend/integration.test.js:152-169 | after creating a room, a lookup reports the same id, the default code, `javascript` and `userCount` 0 |
| `Scenarios.GetUnknown` | 02-codinginterviewplatform/backend/integration.test.js:171-186 | a lookup of an unknown id is not found with `Room not found`; health reports the one live room |
| `Scenarios.JoinFirst` | 02-codinginterviewplatform/backend/integration.test.js:207-222 | the first joiner, named `TestUser`, receives only `room-state` whose users are exactly itself under that name |
| `Scenarios.JoinUnknown` | 02-codinginterviewplatform/backend/integration.test.js:224-235 | joining `badroom1` yields exactly one `error` with `Room not found` to the joiner, which stays unbound |
| `Scenarios.CodeChangeReachesOthers` | 02-codinginterviewplatform/backend/integration.test.js:237-276 | after two joins, client 1's edit reaches client 2, and only client 2, as `code-update` with the identical code and client 1's id |
| `Scenarios.LanguageChangeReachesAll` | 02-codinginterviewplatform/backend/integration.test.js:278-316 | after two joins, a change to `python` reaches both clients, the sender included |
| `Scenarios.JoinThenLeave` | 02-codinginterviewplatform/backend/integration.test.js:318-366 | the first client receives `user-joined` for `User2` with two users, then `user-left` for `User2` with one user |
| `Scenarios.InterviewSession` | 02-codinginterviewplatform/backend/integration.test.js:372-430 | after two joins and the candidate's edit, the interviewer receives that code and the room reports two users |
| `Scenarios.JoinWithoutName` | 02-codinginterviewplatform/backend/server.js:78 | a connection `Xk9zQ2` joining without a name is listed as `User-Xk9z` |
| `Scenarios.UnboundEditsIgnored` | 02-codinginterviewplatform/backend/server.js:103-127 | edits, language changes and cursor moves from a connection that never joined send nothing and leave the room as created |
| `Scenarios.CursorMoves` | 02-codinginterviewplatform/backend/server.js:126-135 | on the server a cursor move reaches the other member with the sender's name; the test copy sends nothing |
| `Scenarios.EmptyRoomReaped` | 02-codinginterviewplatform/backend/server.js:141-163 | when a room's only member leaves and the timer fires, the room is gone and health reports zero |
| `Scenarios.RejoinedRoomSurvives` | 02-codinginterviewplatform/backend/server.js:155-163 | a room emptied and then rejoined before its timer fires survives it with its one new member |
| `Scenarios.LaterTimerStillFires` | 02-codinginterviewplatform/backend/server.js:155-163 | a stale timer that finds the room occupied does not delete it, and the timer armed when the room empties again does |
| `Scenarios.RejoinSameRoom` | 02-codinginterviewplatform/backend/server.js:69-82 | a connection that joins the same room twice is listed twice under one id, breaking the no-duplicates part of the invariant; the room counts two users |
| `Scenarios.RejoinLeavesOrphan` | 02-codinginterviewplatform/backend/server.js:69-82 | a connection that joins a second room and then disconnects is still counted in the first room; only the second room is armed for cleanup |

## Left out

- Express, CORS, `server.listen`, logging and socket.io's transport are not modelled. Emissions are returned lists, not deliveries, so delivery, drops and ordering on the wire are outside the model.
- `Scenarios.RejoinSameRoom`: its third result, two `language-update` deliveries to the connection that joined twice, is the model's count, not socket.io's. The channel holds the socket once, so the server delivers the event once.
- socket.io's room channels are not modelled. Recipients are computed from the room's `users` instead. The two agree while no room lists a connection twice and every listed connection is still connected, which the invariant guarantees. After a second join of the same connection they can differ: a room listing a connection twice, or a disconnected connection left in an old room's list.
- The random room id (`uuidv4().slice(0, 8)`) is a parameter of `CreateRoom`, which requires it to be fresh and eight characters long.
- `createdAt` is informational and is not modelled.
- The one-hour delay is not modelled as time. Arming appends to `pending`, and `FireCleanup` is the moment the oldest timer fires.
- JavaScript falsiness is reduced to two cases:
  - an absent or null `userName` is modelled as the empty string;
  - `currentRoom` is always an 8-character id when set, so the source's truthiness test is the test "the connection is bound".
  - Non-string payloads are not modelled.
- The cursor `position` and `selection` are passed through unchanged, so they are modelled as opaque strings.
- Events are snapshots. The source hands socket.io the live `room.users` array, which socket.io serialises at emit time. The model records the list as it is at that moment.
- The tests' `rooms.clear()` between cases is modelled by starting each scenario from a fresh server.
- `Server.Server.JoinRoom`: preservation of the invariant is promised only for a connection that is not yet bound. The source does not guard a second join, and after one the invariant no longer holds.
- `Server.Server.CursorUpdate`: when the bound room is no longer in the registry, the source still emits to the room's channel, but the model sends nothing. This cannot arise in the model: a room is deleted only when empty, and a bound connection is listed in its room.
- The server's termination by the as-written timer callback is modelled only in `Cleanup` (`Settle`, `AsWrittenTerminatesOnEmptiedRoom`). `Server.Server.FireCleanup` performs the intended step `Reap`, so the class has no terminated state.
- `Server.Server.Health`: only the room count is modelled. The constant `status: 'ok'` field is not.
- The frontend (`Room.jsx`, `Home.jsx`, `CodeExecutor.jsx`) and the Django to-do views are not part of this model. They are UI glue, browser sandboxing and ORM calls.

## Findings

| source | as written | input that shows it | evidently intended | confidence | as-written member | corrected member |
|---|---|---|---|---|---|---|
| 02-codinginterviewplatform/backend/server.js:156-161 | the timer callback declares `const currentRoom = rooms.get(currentRoom)`, whose initializer reads the binding being declared, so it throws a ReferenceError. The exception is thrown inside a timer callback and nothing catches it, since no handler for uncaught exceptions is installed. So the process terminates one hour after any room empties, and every room and connection is lost with it. Even without the throw, line 159 passes the room object rather than its id to `rooms.delete`, which would remove nothing. | a room whose only member disconnects; its timer fires | re-read the armed id at fire time and delete the room if it is still present and still empty, with the server still running | high; not executed | `Cleanup.AsWrittenTerminatesOnEmptiedRoom` | `Cleanup.Reap` |
