/**
 * The chat routing rules: how an inbound socket message is stamped, which
 * connected sockets are entitled to it, which part of the log a user gets
 * replayed on `iam`, and the gate a send must pass before it is stored.
 */
module Routing {
  import opened Wrappers
  import opened Lists
  import opened Directory

  /** A Socket.IO connection id. */
  type SocketId = string

  /** The `type` field: the four kinds the server recognises, and anything else (or nothing). */
  datatype Kind = Global | Dm | Group | Announcement | Unrecognised

  /**
   * The `to` field: a single username (a dm), an array of usernames (a group),
   * or absent / any other value, which matches nobody.
   */
  datatype To = Nobody | Single(name: string) | Several(names: seq<string>)

  /** A stored message record of messages.json; `time` is a millisecond timestamp. */
  datatype Message = Message(id: string, username: string, time: int, kind: Kind, content: Option<string>, to: To)

  /** The object a client emits with "message": each field it carries overrides the server's stamp. */
  datatype Draft = Draft(id: Option<string>, username: Option<string>, time: Option<int>,
                         kind: Kind, content: Option<string>, to: To)

  /** A value of the presence map (`onlineUsers`). */
  datatype Presence = Presence(username: string, ip: string)

  /**
   * The stored record `{ id, username, time, ...draft }`: the server's id,
   * sender and time, then every field the client supplied, which wins.
   */
  function Stamp(draft: Draft, id: string, sender: string, now: int): (m: Message)
    ensures draft.id.None? ==> m.id == id
    ensures draft.id.Some? ==> m.id == draft.id.value
    ensures draft.username.None? ==> m.username == sender
    ensures draft.username.Some? ==> m.username == draft.username.value
    ensures draft.time.None? ==> m.time == now
    ensures draft.time.Some? ==> m.time == draft.time.value
    ensures m.kind == draft.kind && m.content == draft.content && m.to == draft.to
  {
    Message(draft.id.GetOr(id), draft.username.GetOr(sender), draft.time.GetOr(now),
            draft.kind, draft.content, draft.to)
  }

  /**
   * The addressing rule for a viewer `u`, before roles: global and announcement
   * messages reach everyone, a dm its `username` or its `to`, a group message
   * the members of its `to` array; anything else nobody.
   */
  function Entitled(m: Message, u: string): (entitled: bool)
    ensures m.kind == Global || m.kind == Announcement ==> entitled
    ensures m.kind == Dm && m.to.Single? ==> (entitled <==> u == m.username || u == m.to.name)
    ensures m.kind == Dm && !m.to.Single? ==> (entitled <==> u == m.username)
    ensures m.kind == Group ==> (entitled <==> m.to.Several? && u in m.to.names)
    ensures m.kind == Unrecognised ==> !entitled
  {
    match m.kind
    case Global => true
    case Announcement => true
    case Dm => m.username == u || m.to == Single(u)
    case Group => m.to.Several? && u in m.to.names
    case Unrecognised => false
  }

  /** Host and admin see everything; everyone else what is addressed to them. */
  function Visible(m: Message, u: string, role: string): (visible: bool)
    ensures Privileged(role) ==> visible
    ensures !Privileged(role) ==> (visible <==> Entitled(m, u))
  {
    Privileged(role) || Entitled(m, u)
  }

  /**
   * The history replayed to `u` on `iam`: the whole log for host and admin,
   * otherwise the log filtered by the addressing rule.
   */
  function History(log: seq<Message>, u: string, role: string): (h: seq<Message>)
    ensures Privileged(role) ==> h == log
    ensures forall i :: 0 <= i < |h| ==> h[i] in log && Visible(h[i], u, role)
    ensures forall i :: 0 <= i < |log| && Visible(log[i], u, role) ==> log[i] in h
  {
    if Privileged(role) then log else Filter(log, (m: Message) => Entitled(m, u))
  }

  /** The history is the log filtered, in order, by the very predicate live delivery uses. */
  lemma HistoryIsVisibleFilter(log: seq<Message>, u: string, role: string)
    ensures History(log, u, role) == Filter(log, (m: Message) => Visible(m, u, role))
  {
    if Privileged(role) {
      FilterKeepsAll(log, (m: Message) => Visible(m, u, role));
    } else {
      FilterCongruent(log, (m: Message) => Entitled(m, u), (m: Message) => Visible(m, u, role));
    }
  }

  /** Appending one message extends a user's history by that message exactly when it is visible to them. */
  lemma HistoryAppend(log: seq<Message>, m: Message, u: string, role: string)
    ensures History(log + [m], u, role) ==
            History(log, u, role) + (if Visible(m, u, role) then [m] else [])
  {
    var p := (x: Message) => Visible(x, u, role);
    HistoryIsVisibleFilter(log + [m], u, role);
    HistoryIsVisibleFilter(log, u, role);
    FilterAppend(log, [m], p);
    assert Filter([m], p) == (if p(m) then [m] else []) + Filter([m][1..], p);
  }

  /** A live socket receives a message when it is registered and its user may see it. */
  predicate Receives(online: map<SocketId, Presence>, users: seq<Account>, m: Message, id: SocketId) {
    id in online && Visible(m, online[id].username, RoleOf(users, online[id].username))
  }

  /** The sockets a message is emitted to, in the transport's socket order. */
  function Recipients(sockets: seq<SocketId>, online: map<SocketId, Presence>, users: seq<Account>, m: Message): (r: seq<SocketId>)
    ensures |r| <= |sockets|
    ensures forall i :: 0 <= i < |r| ==> r[i] in sockets && Receives(online, users, m, r[i])
    ensures forall i :: 0 <= i < |sockets| && Receives(online, users, m, sockets[i]) ==> sockets[i] in r
  {
    Filter(sockets, (id: SocketId) => Receives(online, users, m, id))
  }

  /** A socket is a recipient exactly when it is connected, registered and entitled. */
  lemma RecipientsMembership(sockets: seq<SocketId>, online: map<SocketId, Presence>, users: seq<Account>,
                             m: Message, id: SocketId)
    ensures id in Recipients(sockets, online, users, m) <==> id in sockets && Receives(online, users, m, id)
  {
  }

  /**
   * The delivery rule spelled out per type: a connected, registered socket
   * receives a message exactly when its user is host or admin, or the message
   * is global or an announcement, or it is a dm from or to that user, or a
   * group message whose `to` array lists that user.
   */
  lemma RecipientsByKind(sockets: seq<SocketId>, online: map<SocketId, Presence>, users: seq<Account>,
                         m: Message, id: SocketId)
    requires id in sockets && id in online
    ensures var u := online[id].username;
      id in Recipients(sockets, online, users, m) <==>
        || Privileged(RoleOf(users, u))
        || m.kind == Global || m.kind == Announcement
        || (m.kind == Dm && (m.username == u || m.to == Single(u)))
        || (m.kind == Group && m.to.Several? && u in m.to.names)
  {
    RecipientsMembership(sockets, online, users, m, id);
  }

  /** Delivery depends on the username only: two sockets of one user get the same messages. */
  lemma SameUserSameDelivery(sockets: seq<SocketId>, online: map<SocketId, Presence>, users: seq<Account>,
                             m: Message, a: SocketId, b: SocketId)
    requires a in sockets && b in sockets && a in online && b in online
    requires online[a].username == online[b].username
    ensures a in Recipients(sockets, online, users, m) <==> b in Recipients(sockets, online, users, m)
  {
    RecipientsMembership(sockets, online, users, m, a);
    RecipientsMembership(sockets, online, users, m, b);
  }

  /** A socket that is not in the presence map (never registered, or disconnected) receives nothing. */
  lemma UnregisteredReceivesNothing(sockets: seq<SocketId>, online: map<SocketId, Presence>, users: seq<Account>,
                                    m: Message, id: SocketId)
    requires id !in online
    ensures id !in Recipients(sockets, online, users, m)
  {
    RecipientsMembership(sockets, online, users, m, id);
  }

  /** Extending the socket list by one socket extends the recipients by it exactly when it receives. */
  lemma RecipientsAppend(sockets: seq<SocketId>, id: SocketId, online: map<SocketId, Presence>,
                         users: seq<Account>, m: Message)
    ensures Recipients(sockets + [id], online, users, m) ==
            Recipients(sockets, online, users, m) + (if Receives(online, users, m, id) then [id] else [])
  {
    var p := (x: SocketId) => Receives(online, users, m, x);
    FilterAppend(sockets, [id], p);
    assert Filter([id], p) == (if p(id) then [id] else []) + Filter([id][1..], p);
  }

  /**
   * Live delivery and history replay agree: after a message is appended, a
   * registered socket's user has it in their replayed history exactly when the
   * socket was among its live recipients.
   */
  lemma LiveMatchesHistory(log: seq<Message>, m: Message, sockets: seq<SocketId>,
                           online: map<SocketId, Presence>, users: seq<Account>, id: SocketId)
    requires id in sockets && id in online
    ensures var u := online[id].username;
      History(log + [m], u, RoleOf(users, u)) ==
      History(log, u, RoleOf(users, u)) + (if id in Recipients(sockets, online, users, m) then [m] else [])
  {
    var u := online[id].username;
    HistoryAppend(log, m, u, RoleOf(users, u));
    var i :| 0 <= i < |sockets| && sockets[i] == id;
    assert Receives(online, users, m, id) <==> id in Recipients(sockets, online, users, m);
  }

  const BannedNotice := "You are banned."
  const LockedNotice := "Site is locked."

  /** What the "message" handler does with a send before stamping it. */
  datatype Verdict = Ignore | Refuse(notice: string) | Admit

  /**
   * The gates of the "message" handler, in order: a socket that never sent a
   * truthy `iam` is ignored; an active ban of the user or of the socket's IP
   * refuses; a locked site refuses everyone but host and admin.
   */
  function SendGate(currentUser: Option<string>, ip: string, users: seq<Account>,
                    userBans: seq<BanEntry>, ipBans: seq<BanEntry>, locked: bool, now: int): (v: Verdict)
    ensures v == Ignore <==> !IsSet(currentUser)
    ensures v == Refuse(BannedNotice) <==>
      IsSet(currentUser) && (Banned(userBans, currentUser.value, now) || Banned(ipBans, ip, now))
    ensures v == Refuse(LockedNotice) <==>
      IsSet(currentUser) && !Banned(userBans, currentUser.value, now) && !Banned(ipBans, ip, now)
      && locked && !Privileged(RoleOf(users, currentUser.value))
    ensures v == Admit <==>
      IsSet(currentUser) && !Banned(userBans, currentUser.value, now) && !Banned(ipBans, ip, now)
      && (!locked || Privileged(RoleOf(users, currentUser.value)))
  {
    if !IsSet(currentUser) then Ignore
    else
      var role := RoleOf(users, currentUser.value);
      if Banned(userBans, currentUser.value, now) || Banned(ipBans, ip, now) then Refuse(BannedNotice)
      else if locked && !Privileged(role) then Refuse(LockedNotice)
      else Admit
  }

  /**
   * An IP banned for `d > 0` minutes at `issued` cannot send from that IP
   * before the ban runs out, and can again once it has, if nothing else bars it.
   */
  lemma {:induction false} IpBanWindow(user: string, ip: string, issuer: string, users: seq<Account>,
                                       issued: int, d: int, locked: bool, t: int)
    requires user != "" && d > 0
    requires !locked
    ensures var ipBans := [BanEntry(ip, issuer, BanExpiry(issued, Some(d)))];
      SendGate(Some(user), ip, users, [], ipBans, locked, t) ==
        (if t < issued + d * MinuteMillis then Refuse(BannedNotice) else Admit)
  {
    var ipBans := [BanEntry(ip, issuer, BanExpiry(issued, Some(d)))];
    BanWindow(ip, issuer, issued, Some(d), t);
  }
}
