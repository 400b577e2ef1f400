/**
 * The server's in-memory state and its handlers: the Socket.IO events
 * ("iam", "message", "disconnect") and the moderation endpoints under /api.
 * Each handler updates the fields it names in place, as the source updates
 * its arrays, maps and flags.
 */
module Server {
  import opened Wrappers
  import opened Directory
  import opened Routing
  import opened Access

  /**
   * The reply of a moderation endpoint: `{ok: true}`, an error code, or none
   * at all because the handler threw (its promise rejects unhandled).
   */
  datatype Reply = Ok | Error(code: string) | Unanswered

  const MissingUsername := "missing username"
  const MissingIp := "missing ip"
  const NoUser := "no user"
  const MissingContent := "missing content"

  /** What a socket's "message" event leads to: nothing, an "errorMsg" to the sender only, or a stored and emitted message. */
  datatype SendReply = Silent | Notice(text: string) | Broadcast(message: Message, to: seq<SocketId>)

  /** The state a connection handler closes over: the socket id, its address, and the user its last `iam` named. */
  class Connection {
    const id: SocketId
    const ip: string
    var currentUser: Option<string>

    constructor (id: SocketId, ip: string)
      ensures this.id == id && this.ip == ip && currentUser == None
    {
      this.id := id;
      this.ip := ip;
      currentUser := None;
    }
  }

  class ChatServer {
    /** users.json */
    var users: seq<Account>
    /** messages.json, oldest first */
    var messages: seq<Message>
    /** bans.json, `username` list */
    var userBans: seq<BanEntry>
    /** bans.json, `ip` list */
    var ipBans: seq<BanEntry>
    /** site.json */
    var locked: bool
    /** `onlineUsers`: socket id to the user it registered and its address */
    var online: map<SocketId, Presence>

    /** A server started over the given stores, with nobody online. */
    constructor (users: seq<Account>, messages: seq<Message>, userBans: seq<BanEntry>,
                 ipBans: seq<BanEntry>, locked: bool)
      ensures this.users == users && this.messages == messages
      ensures this.userBans == userBans && this.ipBans == ipBans && this.locked == locked
      ensures online == map[]
    {
      this.users := users;
      this.messages := messages;
      this.userBans := userBans;
      this.ipBans := ipBans;
      this.locked := locked;
      online := map[];
    }

    /** POST /signup: appends the account when every check passes. */
    method Signup(username: string, password: string, now: int) returns (r: SignupResult)
      modifies this`users
      ensures r == SignupCheck(username, password, old(users), userBans, now)
      ensures users == if r == Created then old(users) + [NewAccount(username, password)] else old(users)
    {
      r := SignupCheck(username, password, users, userBans, now);
      if r == Created {
        users := users + [NewAccount(username, password)];
      }
    }

    /**
     * Socket event "iam": the connection adopts the username, the presence map
     * records it under the socket id (replacing any earlier entry), and the
     * history for that user is returned for the "history" event.
     */
    method Iam(conn: Connection, username: string) returns (history: seq<Message>)
      modifies this`online, conn`currentUser
      ensures conn.currentUser == Some(username)
      ensures online == old(online)[conn.id := Presence(username, conn.ip)]
      ensures history == History(messages, username, RoleOf(users, username))
    {
      conn.currentUser := Some(username);
      online := online[conn.id := Presence(username, conn.ip)];
      var role := RoleOf(users, username);
      history := History(messages, username, role);
    }

    /** Socket event "disconnect": the socket leaves the presence map. */
    method Disconnect(id: SocketId)
      modifies this`online
      ensures online == old(online) - {id}
    {
      online := online - {id};
    }

    /**
     * The emit loop of the "message" handler: walks the transport's sockets in
     * order, skips those not in the presence map, and decides `shouldSend`
     * for each from the message's type and addressing and the target's role.
     */
    method FanOut(m: Message, sockets: seq<SocketId>) returns (delivered: seq<SocketId>)
      ensures delivered == Recipients(sockets, online, users, m)
      ensures forall id :: id in delivered <==> id in sockets && Receives(online, users, m, id)
    {
      delivered := [];
      for i := 0 to |sockets|
        invariant delivered == Recipients(sockets[..i], online, users, m)
      {
        var id := sockets[i];
        RecipientsAppend(sockets[..i], id, online, users, m);
        assert sockets[..i + 1] == sockets[..i] + [id];
        if id in online {
          var target := online[id].username;
          var targetRole := RoleOf(users, target);
          var shouldSend := false;
          if m.kind == Global || m.kind == Announcement {
            shouldSend := true;
          }
          if m.kind == Dm {
            if m.username == target || m.to == Single(target) {
              shouldSend := true;
            }
          }
          if m.kind == Group {
            if m.to.Several? && target in m.to.names {
              shouldSend := true;
            }
          }
          if targetRole == HostRole || targetRole == AdminRole {
            shouldSend := true;
          }
          if shouldSend {
            delivered := delivered + [id];
          }
        }
      }
      assert sockets[..|sockets|] == sockets;
      forall id ensures id in delivered <==> id in sockets && Receives(online, users, m, id) {
        RecipientsMembership(sockets, online, users, m, id);
      }
    }

    /**
     * Socket event "message": the send gate, then the stamped record is
     * appended to the log and emitted to every entitled socket. A refused send
     * stores nothing and only tells its sender.
     */
    method Send(conn: Connection, draft: Draft, id: string, now: int, sockets: seq<SocketId>) returns (reply: SendReply)
      modifies this`messages
      ensures var v := SendGate(conn.currentUser, conn.ip, users, userBans, ipBans, locked, now);
        && (v == Ignore ==> reply == Silent && messages == old(messages))
        && (v.Refuse? ==> reply == Notice(v.notice) && messages == old(messages))
        && (v == Admit ==>
              && reply.Broadcast?
              && reply.message == Stamp(draft, id, conn.currentUser.value, now)
              && messages == old(messages) + [reply.message]
              && reply.to == Recipients(sockets, online, users, reply.message))
    {
      var v := SendGate(conn.currentUser, conn.ip, users, userBans, ipBans, locked, now);
      match v
      case Ignore =>
        reply := Silent;
      case Refuse(notice) =>
        reply := Notice(notice);
      case Admit =>
        var message := Stamp(draft, id, conn.currentUser.value, now);
        messages := messages + [message];
        var to := FanOut(message, sockets);
        reply := Broadcast(message, to);
    }

    /**
     * POST /api/ban (host or admin): appends a username ban issued by the
     * session user; an expiry outside the Date range throws first.
     */
    method Ban(session: Option<string>, username: string, durationMinutes: Option<int>, now: int) returns (reply: Reply)
      modifies this`userBans
      ensures var gate := RequireRole(HostOrAdmin, session, users);
        && (gate.Failure? ==> reply == Error(gate.error) && userBans == old(userBans))
        && (gate.Success? && username == "" ==> reply == Error(MissingUsername) && userBans == old(userBans))
        && (gate.Success? && username != "" && !ExpiryRepresentable(now, durationMinutes) ==>
              reply == Unanswered && userBans == old(userBans))
        && (gate.Success? && username != "" && ExpiryRepresentable(now, durationMinutes) ==>
              reply == Ok
              && userBans == old(userBans) + [BanEntry(username, gate.value.username, BanExpiry(now, durationMinutes))])
    {
      var gate := RequireRole(HostOrAdmin, session, users);
      if gate.Failure? {
        return Error(gate.error);
      }
      if username == "" {
        return Error(MissingUsername);
      }
      if !ExpiryRepresentable(now, durationMinutes) {
        return Unanswered;
      }
      userBans := userBans + [BanEntry(username, gate.value.username, BanExpiry(now, durationMinutes))];
      reply := Ok;
    }

    /**
     * POST /api/ipban (host only): appends an IP ban issued by the session
     * user; an expiry outside the Date range throws first.
     */
    method IpBan(session: Option<string>, ip: string, durationMinutes: Option<int>, now: int) returns (reply: Reply)
      modifies this`ipBans
      ensures var gate := RequireRole(HostOnly, session, users);
        && (gate.Failure? ==> reply == Error(gate.error) && ipBans == old(ipBans))
        && (gate.Success? && ip == "" ==> reply == Error(MissingIp) && ipBans == old(ipBans))
        && (gate.Success? && ip != "" && !ExpiryRepresentable(now, durationMinutes) ==>
              reply == Unanswered && ipBans == old(ipBans))
        && (gate.Success? && ip != "" && ExpiryRepresentable(now, durationMinutes) ==>
              reply == Ok
              && ipBans == old(ipBans) + [BanEntry(ip, gate.value.username, BanExpiry(now, durationMinutes))])
    {
      var gate := RequireRole(HostOnly, session, users);
      if gate.Failure? {
        return Error(gate.error);
      }
      if ip == "" {
        return Error(MissingIp);
      }
      if !ExpiryRepresentable(now, durationMinutes) {
        return Unanswered;
      }
      ipBans := ipBans + [BanEntry(ip, gate.value.username, BanExpiry(now, durationMinutes))];
      reply := Ok;
    }

    /** POST /api/unban (host or admin): drops every username ban of that name. */
    method Unban(session: Option<string>, username: string) returns (reply: Reply)
      modifies this`userBans
      ensures var gate := RequireRole(HostOrAdmin, session, users);
        && (gate.Failure? ==> reply == Error(gate.error) && userBans == old(userBans))
        && (gate.Success? ==> reply == Ok && userBans == WithoutSubject(old(userBans), username))
    {
      var gate := RequireRole(HostOrAdmin, session, users);
      if gate.Failure? {
        return Error(gate.error);
      }
      userBans := WithoutSubject(userBans, username);
      reply := Ok;
    }

    /** POST /api/unipban (host only): drops every ban of that IP. */
    method UnIpBan(session: Option<string>, ip: string) returns (reply: Reply)
      modifies this`ipBans
      ensures var gate := RequireRole(HostOnly, session, users);
        && (gate.Failure? ==> reply == Error(gate.error) && ipBans == old(ipBans))
        && (gate.Success? ==> reply == Ok && ipBans == WithoutSubject(old(ipBans), ip))
    {
      var gate := RequireRole(HostOnly, session, users);
      if gate.Failure? {
        return Error(gate.error);
      }
      ipBans := WithoutSubject(ipBans, ip);
      reply := Ok;
    }

    /** The body shared by /api/giveadmin and /api/removeadmin: set one user's role, host only. */
    method ChangeRole(session: Option<string>, username: string, role: string) returns (reply: Reply)
      modifies this`users
      ensures var gate := RequireRole(HostOnly, session, old(users));
        var changed := SetRole(old(users), username, role);
        && (gate.Failure? ==> reply == Error(gate.error) && users == old(users))
        && (gate.Success? && changed.None? ==> reply == Error(NoUser) && users == old(users))
        && (gate.Success? && changed.Some? ==> reply == Ok && users == changed.value)
    {
      var gate := RequireRole(HostOnly, session, users);
      if gate.Failure? {
        return Error(gate.error);
      }
      var changed := SetRole(users, username, role);
      if changed.None? {
        return Error(NoUser);
      }
      users := changed.value;
      reply := Ok;
    }

    /** POST /api/giveadmin (host only): the named user becomes "admin". */
    method GiveAdmin(session: Option<string>, username: string) returns (reply: Reply)
      modifies this`users
      ensures var gate := RequireRole(HostOnly, session, old(users));
        var changed := SetRole(old(users), username, AdminRole);
        && (gate.Failure? ==> reply == Error(gate.error) && users == old(users))
        && (gate.Success? && changed.None? ==> reply == Error(NoUser) && users == old(users))
        && (gate.Success? && changed.Some? ==> reply == Ok && users == changed.value)
    {
      reply := ChangeRole(session, username, AdminRole);
    }

    /** POST /api/removeadmin (host only): the named user becomes "user". */
    method RemoveAdmin(session: Option<string>, username: string) returns (reply: Reply)
      modifies this`users
      ensures var gate := RequireRole(HostOnly, session, old(users));
        var changed := SetRole(old(users), username, UserRole);
        && (gate.Failure? ==> reply == Error(gate.error) && users == old(users))
        && (gate.Success? && changed.None? ==> reply == Error(NoUser) && users == old(users))
        && (gate.Success? && changed.Some? ==> reply == Ok && users == changed.value)
    {
      reply := ChangeRole(session, username, UserRole);
    }

    /** POST /api/lock and /api/unlock (host only): set the site lock flag. */
    method SetLock(session: Option<string>, value: bool) returns (reply: Reply)
      modifies this`locked
      ensures var gate := RequireRole(HostOnly, session, users);
        && (gate.Failure? ==> reply == Error(gate.error) && locked == old(locked))
        && (gate.Success? ==> reply == Ok && locked == value)
    {
      var gate := RequireRole(HostOnly, session, users);
      if gate.Failure? {
        return Error(gate.error);
      }
      locked := value;
      reply := Ok;
    }

    /**
     * POST /api/announce (host or admin): appends an announcement attributed
     * to the session user and emits it to every connected socket, registered
     * or not. Neither the lock nor any ban is consulted.
     */
    method Announce(session: Option<string>, content: string, id: string, now: int, sockets: seq<SocketId>)
      returns (reply: Reply, delivered: seq<SocketId>)
      modifies this`messages
      ensures var gate := RequireRole(HostOrAdmin, session, users);
        && (gate.Failure? ==> reply == Error(gate.error) && delivered == [] && messages == old(messages))
        && (gate.Success? && content == "" ==>
              reply == Error(MissingContent) && delivered == [] && messages == old(messages))
        && (gate.Success? && content != "" ==>
              reply == Ok && delivered == sockets
              && messages == old(messages) + [Message(id, gate.value.username, now, Announcement, Some(content), Nobody)])
    {
      delivered := [];
      var gate := RequireRole(HostOrAdmin, session, users);
      if gate.Failure? {
        return Error(gate.error), [];
      }
      if content == "" {
        return Error(MissingContent), [];
      }
      messages := messages + [Message(id, gate.value.username, now, Announcement, Some(content), Nobody)];
      reply, delivered := Ok, sockets;
    }
  }
}
