# Chickenmessage chat server: routing and authorization model

A Dafny model of the decision logic of the Chickenmessage chat server
(`server.js`): which socket receives which chat message, what history a user
gets replayed when a socket announces itself with `iam`, which gate refuses a
send first (username or IP ban, then the site lock), and how the moderation
endpoints under `/api` change the account table, the two ban lists and the
site-lock flag.

Modules, one per component of the server:

- `Wrappers`: `Option` (a JSON field that may be missing) and `Result`.
- `Lists`: `FindFirst` and `Filter`, the `Array.prototype.find` and
  `Array.prototype.filter` the server builds every lookup from, with the
  order-preservation lemmas about filtering.
- `Directory`: accounts (`users.json`), ban entries (`bans.json`), ban
  activeness (no expiry, or an expiry strictly after `now`), role lookup with
  the `"user"` default for unknown names, and the pure updates behind unban
  and the role changes.
- `Routing`: stored messages, the stamp `{ id, username, time, ...msg }` in
  which every client-supplied field overrides the server's, the addressing
  rule, history replay, the recipients of a live message, and the send gate.
- `Access`: signup validation, the ordered login checks, and `requireRole`.
- `Server`: class `ChatServer` holds the stores and the presence map
  (`onlineUsers`) as fields that its handler methods update in place; class
  `Connection` holds what one socket handler closes over (its id, its
  address and `currentUser`). `FanOut` is the emit loop of the "message"
  handler, written as the source's loop that sets `shouldSend` step by step.

Time is an integer count of milliseconds; the clock, message ids and the
transport's list of connected sockets are parameters. An absent field of a
request body is modelled as the empty string, which the source's `!field`
tests treat the same way. Where a handler compares an absent field with
stored names instead (unban, IP unban, the role changes, login), the source
compares with `undefined`, which matches nothing, while the empty string
would match an entry or account with an empty name; the two agree because no
handler ever stores an empty name or IP.

## Model

| member | source | states |
|---|---|---|
| Lists.FindFirst | server.js:355-356 | `find`: the result is the first position satisfying the predicate; none exactly when no element satisfies it |
| Lists.Filter | server.js:336-341 | `filter`: keeps exactly the elements satisfying the predicate |
| Lists.FilterAppend | server.js:336-341 | filtering distributes over concatenation, so the original order is kept |
| Directory.IsActive | server.js:355-356 | a ban without expiry is always active; one with an expiry is active exactly while `now` is before it |
| Directory.Banned | server.js:355-356 | the `find` for an active ban succeeds exactly when some entry names the subject and is active |
| Directory.RoleOf | server.js:330-331 | the role of the first account with the name, and "user" when no account has it |
| Directory.BanExpiry | server.js:204 | a missing or zero duration gives a ban without expiry; otherwise the expiry lies `minutes * 60000` ms after issue |
| Directory.BanWindow | server.js:204 | a ban issued for `d` minutes is active exactly before `issued + d * 60000`, and forever when `d` is missing or zero |
| Directory.ExpiryRepresentable | server.js:204 | the ban's expiry is absent or lies within the JavaScript Date range of ±8.64e15 ms, the condition under which converting it to an ISO string does not throw |
| Directory.WithoutSubject | server.js:227 | unban keeps exactly the entries of other subjects, and nothing new |
| Directory.UnbanLiftsOnlySubject | server.js:224-239 | after an unban the subject has no active ban and every other subject's ban status is unchanged |
| Directory.UnbanIdempotent | server.js:227 | unbanning twice equals unbanning once |
| Directory.SetRole | server.js:245-247 | "no user" exactly when no account has the name; otherwise only the first such account's role changes, usernames and passwords stay, uniqueness of usernames is kept |
| Directory.SetRoleResolves | server.js:242-261 | after a role change the name resolves to the new role and every other name to its old role |
| Routing.Stamp | server.js:369-370 | the stored record has the server's id, sender and time unless the client supplied them, in which case the client's win; type, content and `to` are the client's |
| Routing.Entitled | server.js:336-341 | global and announcement reach everyone; a dm its sender and its string `to`; a group message exactly the members of an array `to`; any other type nobody |
| Routing.Visible | server.js:398-399 | host and admin see every message; anyone else exactly what is addressed to them |
| Routing.Recipients | server.js:378-404 | the emitted-to sockets are drawn from the connected ones, each is registered and entitled, and every registered entitled socket is among them |
| Routing.History | server.js:326-343 | host and admin get the whole log; every replayed message is in the log and visible to the user, and every visible one is replayed |
| Routing.HistoryIsVisibleFilter | server.js:333-342 | the replay equals the in-order filter of the log by the live-delivery predicate, for every role |
| Routing.HistoryAppend | server.js:336-341 | appending a message extends a user's replay by that message exactly when it is visible to them |
| Routing.RecipientsMembership | server.js:378-381 | a socket receives exactly when it is connected, registered in `onlineUsers` and entitled |
| Routing.RecipientsByKind | server.js:386-399 | per type: host/admin always, global and announcement always, dm when the user is the sender or `to`, group when `to` is an array containing the user |
| Routing.SameUserSameDelivery | server.js:379-384 | two sockets of one username receive the same messages |
| Routing.UnregisteredReceivesNothing | server.js:379-380 | a socket absent from `onlineUsers` receives nothing |
| Routing.RecipientsAppend | server.js:378-404 | one more socket in the loop adds it to the recipients exactly when it receives |
| Routing.LiveMatchesHistory | server.js:322-404 | after a send, a registered socket's user finds the message in their replayed history exactly when the socket received it live |
| Routing.SendGate | server.js:346-367 | ignored exactly without a truthy `iam`; refused "You are banned." exactly on an active username or IP ban; refused "Site is locked." exactly when unbanned, locked and neither host nor admin; admitted otherwise |
| Routing.IpBanWindow | server.js:353-360 | an IP banned for `d` minutes is refused throughout the window and admitted once it has run out |
| Access.SignupCheck | server.js:117-132 | missing fields first, then an active username ban, then an existing username; created exactly when all three pass |
| Access.SignupKeepsNamesUnique | server.js:126-129 | a successful signup keeps usernames unique and the name then resolves to the new account with role "user" |
| Access.FindCredentials | server.js:160 | the first account whose username and password both match, none exactly when no account matches |
| Access.LoginCheck | server.js:134-166 | each reply is characterised both ways and in order: locked exactly when the site is locked and the first credential match is not host or admin; then IP banned, then username banned, then bad credentials exactly when no account matches; logged in otherwise, with the session role being the first match's role or "user" when that is empty |
| Access.RequireRole | server.js:187-196 | no session user gives "not_logged_in"; success exactly when the first account with the session username has an allowed role, yielding that account; "forbidden" otherwise |
| Access.HostOnlyRefusesAdmins | server.js:242 | the host-only guard refuses an admin or an unknown user with "forbidden" |
| Server.Connection.constructor | server.js:310-311 | a new socket has its address and no current user |
| Server.ChatServer.constructor | server.js:26-35 | the server starts over the given stores with nobody online |
| Server.ChatServer.Signup | server.js:117-132 | the reply is the signup check's; the account table grows by `{username, password, "user"}` exactly on success |
| Server.ChatServer.Iam | server.js:322-344 | the socket adopts the username, `onlineUsers` maps its id to `{username, ip}` (replacing any earlier entry) and the reply is that user's history |
| Server.ChatServer.Disconnect | server.js:407 | the socket's entry leaves `onlineUsers`, nothing else changes |
| Server.ChatServer.FanOut | server.js:378-404 | the emitted-to sockets are exactly the recipients, in socket order |
| Server.ChatServer.Send | server.js:346-375 | ignored or refused sends store nothing and reach only the sender; an admitted send appends exactly the stamped message at the end of the log and emits it to exactly its recipients |
| Server.ChatServer.Ban | server.js:199-209 | after the host/admin guard and a non-empty username: an expiry outside the Date range throws, leaving no reply and no entry; otherwise appends exactly one entry `{username, issuer, expiry}` |
| Server.ChatServer.IpBan | server.js:212-221 | after the host guard and a non-empty ip: an expiry outside the Date range throws, leaving no reply and no entry; otherwise appends exactly one entry `{ip, issuer, expiry}` |
| Server.ChatServer.Unban | server.js:224-230 | after the host/admin guard, removes every username ban of that name and keeps the rest; IP bans untouched |
| Server.ChatServer.UnIpBan | server.js:233-239 | after the host guard, removes every ban of that IP and keeps the rest; username bans untouched |
| Server.ChatServer.ChangeRole | server.js:242-261 | after the host guard, "no user" and no change for an unknown name, else the role update of `SetRole` |
| Server.ChatServer.GiveAdmin | server.js:242-250 | after the host guard, the first account of that name becomes "admin"; "no user" and no change otherwise |
| Server.ChatServer.RemoveAdmin | server.js:253-261 | after the host guard, the first account of that name becomes "user"; "no user" and no change otherwise |
| Server.ChatServer.SetLock | server.js:264-275 | after the host guard, the lock flag takes the requested value |
| Server.ChatServer.Announce | server.js:278-290 | after the host/admin guard and non-empty content, appends one announcement by the issuer and emits it to every connected socket |

## Left out

- HTTP plumbing: routing, sessions, cookies, page serving, `/logout`, `/me`,
  `/host`, `/chat` and the read-only `/api/state` listing. `LoginCheck`
  returns the session username and role instead of writing a session.
- The no-op "identify" socket handler.
- Persistence through JSON files and the GitHub sync of the account table:
  the stores are fields of `ChatServer`; the seeded host account is whatever
  the constructor is given.
- The Socket.IO transport: emits are returned as lists of socket ids; the
  transport's socket list is a parameter.
- Id generation from the clock and a random number, and ISO date strings:
  ids and the current time are parameters, timestamps are integers.
- What follows an unanswered ban request: the thrown error rejects the
  handler's promise unhandled, which may end the whole process; the model
  only records that no reply is sent and nothing is stored.
- Interleaving of the asynchronous handlers, which can lose updates between
  a read and the following write; the model runs each handler atomically, so
  the per-target re-read of the account table in the emit loop sees the same
  table.
- Routing.Stamp: only the fields `id`, `username`, `time`, `type`,
  `content` and `to` of a client message are modelled; any other field the
  client sends is stored by the source and dropped by the model.
- Directory.BanExpiry: the duration is taken to be a JSON number; a
  form-encoded string "0" is truthy in the source and stores an expiry equal
  to the issue time (a ban that has already lapsed), whereas the model's zero
  duration gives a ban without expiry.
- JSON values of other types: usernames and members of `to` are strings, a
  `type` outside the four kinds and a `to` that is neither a string nor an
  array are single "matches nobody" cases, durations are whole minutes, and a
  missing `role` field of an account is not modelled (roles are strings; the
  empty role is what login's `|| "user"` default acts on).
- Message purge by category, kick and mute are not in this server's source,
  and neither is a fail-closed treatment of unknown senders: the code gives
  an unknown username the role "user", and the model follows the code.
