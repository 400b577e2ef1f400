/**
 * The HTTP-side account gates: signup validation, the ordered login checks,
 * and the `requireRole` guard in front of every moderation endpoint.
 */
module Access {
  import opened Wrappers
  import opened Lists
  import opened Directory

  /** The four replies of POST /signup. */
  datatype SignupResult = MissingFields | AccountBanned | UsernameTaken | Created

  /**
   * POST /signup: both fields must be non-empty, then an active ban of the
   * username refuses, then an existing username refuses; otherwise the account
   * `{username, password, role: "user"}` is created.
   */
  function SignupCheck(username: string, password: string, users: seq<Account>,
                       userBans: seq<BanEntry>, now: int): (r: SignupResult)
    ensures (username == "" || password == "") <==> r == MissingFields
    ensures r == AccountBanned <==> username != "" && password != "" && Banned(userBans, username, now)
    ensures r == UsernameTaken ==> exists i :: 0 <= i < |users| && users[i].username == username
    ensures r == Created <==>
      username != "" && password != "" && !Banned(userBans, username, now)
      && forall i :: 0 <= i < |users| ==> users[i].username != username
  {
    if username == "" || password == "" then MissingFields
    else if Banned(userBans, username, now) then AccountBanned
    else if FindAccount(users, username).Some? then UsernameTaken
    else Created
  }

  /** The account a successful signup appends. */
  function NewAccount(username: string, password: string): Account {
    Account(username, password, UserRole)
  }

  /**
   * A successful signup keeps usernames unique, and the new account is the one
   * its username resolves to afterwards, with role "user".
   */
  lemma {:induction false} SignupKeepsNamesUnique(username: string, password: string, users: seq<Account>,
                                                  userBans: seq<BanEntry>, now: int)
    requires UniqueNames(users)
    requires SignupCheck(username, password, users, userBans, now) == Created
    ensures UniqueNames(users + [NewAccount(username, password)])
    ensures FindAccount(users + [NewAccount(username, password)], username) == Some(|users|)
    ensures RoleOf(users + [NewAccount(username, password)], username) == UserRole
  {
    var after := users + [NewAccount(username, password)];
    assert forall i :: 0 <= i < |users| ==> after[i] == users[i];
    var found := FindAccount(after, username);
    assert after[|users|].username == username;
    assert found.Some?;
    assert found.value == |users|;
  }

  /** The replies of POST /login, in the order the handler can produce them. */
  datatype LoginResult = SiteLocked | IpBanned | NameBanned | BadCredentials | LoggedIn(username: string, role: string)

  /** The account's username and password both equal the submitted ones. */
  predicate Matches(u: Account, username: string, password: string) {
    u.username == username && u.password == password
  }

  /** Position of the first account whose credentials match. */
  function FindCredentials(users: seq<Account>, username: string, password: string): (r: Option<nat>)
    ensures r.Some? ==> r.value < |users| && Matches(users[r.value], username, password)
    ensures r.Some? ==> forall j :: 0 <= j < r.value ==> !Matches(users[j], username, password)
    ensures r.None? <==> forall j :: 0 <= j < |users| ==> !Matches(users[j], username, password)
  {
    FindFirst(users, (u: Account) => Matches(u, username, password))
  }

  /**
   * POST /login: while the site is locked only a matching account with role
   * host or admin gets past the first check; then an active IP ban, then an
   * active username ban, then the credentials decide. The session role is the
   * account's role, "user" when that is empty.
   */
  function LoginCheck(username: string, password: string, ip: string, users: seq<Account>,
                      userBans: seq<BanEntry>, ipBans: seq<BanEntry>, locked: bool, now: int): (r: LoginResult)
    ensures r == SiteLocked <==>
      locked && !(FindCredentials(users, username, password).Some?
                  && Privileged(users[FindCredentials(users, username, password).value].role))
    ensures r == IpBanned <==> r != SiteLocked && Banned(ipBans, ip, now)
    ensures r == NameBanned <==> r != SiteLocked && !Banned(ipBans, ip, now) && Banned(userBans, username, now)
    ensures r == BadCredentials <==>
      r != SiteLocked && !Banned(ipBans, ip, now) && !Banned(userBans, username, now)
      && forall i :: 0 <= i < |users| ==> !Matches(users[i], username, password)
    ensures r.LoggedIn? <==>
      r != SiteLocked && !Banned(ipBans, ip, now) && !Banned(userBans, username, now)
      && exists i :: 0 <= i < |users| && Matches(users[i], username, password)
    ensures r.LoggedIn? ==>
      var account := users[FindCredentials(users, username, password).value];
      r.username == username && r.role == (if account.role == "" then UserRole else account.role)
    ensures r.LoggedIn? ==> r.role != "" && (locked ==> Privileged(r.role))
  {
    var candidate := FindCredentials(users, username, password);
    if locked && !(candidate.Some? && Privileged(users[candidate.value].role)) then SiteLocked
    else if Banned(ipBans, ip, now) then IpBanned
    else if Banned(userBans, username, now) then NameBanned
    else match candidate
      case None => BadCredentials
      case Some(i) => LoggedIn(username, if users[i].role == "" then UserRole else users[i].role)
  }

  const NotLoggedIn := "not_logged_in"
  const Forbidden := "forbidden"

  /** The role sets the endpoints are guarded by. */
  const HostOnly: seq<string> := [HostRole]
  const HostOrAdmin: seq<string> := [HostRole, AdminRole]

  /**
   * `requireRole(...allowed)`: no session user refuses with "not_logged_in";
   * a session user without an account, or whose account's role is not
   * allowed, refuses with "forbidden"; otherwise yields that account.
   */
  function RequireRole(allowed: seq<string>, session: Option<string>, users: seq<Account>): (r: Result<Account, string>)
    ensures !IsSet(session) ==> r == Failure(NotLoggedIn)
    ensures IsSet(session) && r.Failure? ==> r.error == Forbidden
    ensures r.Success? <==>
      IsSet(session) && FindAccount(users, session.value).Some? && RoleOf(users, session.value) in allowed
    ensures r.Success? ==>
      r.value == users[FindAccount(users, session.value).value]
      && r.value.username == session.value && r.value.role in allowed
  {
    if !IsSet(session) then Failure(NotLoggedIn)
    else match FindAccount(users, session.value)
      case None => Failure(Forbidden)
      case Some(i) => if users[i].role in allowed then Success(users[i]) else Failure(Forbidden)
  }

  /** An admin, or a user without an account, is refused by the host-only guard. */
  lemma HostOnlyRefusesAdmins(session: string, users: seq<Account>)
    requires session != ""
    requires RoleOf(users, session) != HostRole
    ensures RequireRole(HostOnly, Some(session), users) == Failure(Forbidden)
  {
  }
}
