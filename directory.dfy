/**
 * The account table (users.json) and the two ban lists (bans.json) as the
 * server reads them: lookups by `find`, ban activeness, and the pure updates
 * that the moderation endpoints apply to them.
 */
module Directory {
  import opened Wrappers
  import opened Lists

  const HostRole := "host"
  const AdminRole := "admin"
  const UserRole := "user"

  /** Milliseconds in one minute: a ban of `d` minutes expires `d * MinuteMillis` after it is issued. */
  const MinuteMillis := 60000

  /** One row of the account table. `role` is whatever string the table holds. */
  datatype Account = Account(username: string, password: string, role: string)

  /**
   * One ban entry. `subject` is the `name` field of a username ban or the `ip`
   * field of an IP ban; `issuer` is the `by` field (the issuing user); `expires` is a millisecond
   * timestamp, or None for a ban without end.
   */
  datatype BanEntry = BanEntry(subject: string, issuer: string, expires: Option<int>)

  /** JavaScript truthiness of an optional string field: present and non-empty. */
  predicate IsSet(field: Option<string>) {
    field.Some? && field.value != ""
  }

  /** Roles that bypass the site lock and see every message. */
  predicate Privileged(role: string) {
    role == HostRole || role == AdminRole
  }

  /** Position of the first account with this username (`users.find(u => u.username === name)`). */
  function FindAccount(users: seq<Account>, name: string): Option<nat> {
    FindFirst(users, (u: Account) => u.username == name)
  }

  /** The role the server resolves for a username: the first matching account's, or "user" when there is none. */
  function RoleOf(users: seq<Account>, name: string): (role: string)
    ensures (forall i :: 0 <= i < |users| ==> users[i].username != name) ==> role == UserRole
    ensures forall i :: (0 <= i < |users| && users[i].username == name
                         && forall j :: 0 <= j < i ==> users[j].username != name) ==>
      role == users[i].role
  {
    match FindAccount(users, name)
    case Some(i) => users[i].role
    case None => UserRole
  }

  /** A ban is active when it has no expiry or its expiry lies strictly after `now`. */
  function IsActive(b: BanEntry, now: int): (active: bool)
    ensures b.expires.None? ==> active
    ensures b.expires.Some? ==> (active <==> now < b.expires.value)
  {
    b.expires.None? || b.expires.value > now
  }

  /** The entry is an active ban of `subject`. */
  predicate Bars(b: BanEntry, subject: string, now: int) {
    b.subject == subject && IsActive(b, now)
  }

  /** The `find` for an active ban of `subject` succeeds: some entry of the list bars it. */
  function Banned(bans: seq<BanEntry>, subject: string, now: int): (banned: bool)
    ensures banned <==> exists j :: 0 <= j < |bans| && bans[j].subject == subject && IsActive(bans[j], now)
  {
    FindFirst(bans, (b: BanEntry) => Bars(b, subject, now)).Some?
  }

  /**
   * The expiry stored by a ban issued at `now`: none when the duration is
   * missing or the number zero. The duration is a JSON number here; a
   * form-encoded "0" is a truthy string in the source and is not this case.
   */
  function BanExpiry(now: int, durationMinutes: Option<int>): (r: Option<int>)
    ensures r.None? <==> durationMinutes.None? || durationMinutes.value == 0
    ensures r.Some? ==> r.value - now == durationMinutes.value * MinuteMillis
  {
    if durationMinutes.None? || durationMinutes.value == 0 then None
    else Some(now + durationMinutes.value * MinuteMillis)
  }

  /** A ban issued at `issued` for `durationMinutes` is active at `t` exactly inside its window. */
  lemma {:induction false} BanWindow(subject: string, issuer: string, issued: int, durationMinutes: Option<int>, t: int)
    ensures var e := BanEntry(subject, issuer, BanExpiry(issued, durationMinutes));
      IsActive(e, t) <==>
        durationMinutes.None? || durationMinutes.value == 0 || t < issued + durationMinutes.value * MinuteMillis
  {
  }

  /** The largest magnitude, in milliseconds, of a timestamp a JavaScript Date can hold. */
  const MaxDateMillis := 8_640_000_000_000_000

  /**
   * The expiry of a ban issued at `now` can be written as a date: there is
   * none, or it lies within the Date range. Outside it, converting the expiry
   * to an ISO string throws before the ban is stored.
   */
  function ExpiryRepresentable(now: int, durationMinutes: Option<int>): (ok: bool)
    ensures ok <==> match BanExpiry(now, durationMinutes)
                    case None => true
                    case Some(e) => -MaxDateMillis <= e <= MaxDateMillis
  {
    durationMinutes.None? || durationMinutes.value == 0
    || -MaxDateMillis <= now + durationMinutes.value * MinuteMillis <= MaxDateMillis
  }

  /** The list after an unban: every entry for `subject` removed, the rest kept in order. */
  function WithoutSubject(bans: seq<BanEntry>, subject: string): (r: seq<BanEntry>)
    ensures forall i :: 0 <= i < |r| ==> r[i].subject != subject && r[i] in bans
    ensures forall i :: 0 <= i < |bans| && bans[i].subject != subject ==> bans[i] in r
  {
    Filter(bans, (b: BanEntry) => b.subject != subject)
  }

  /** Unbanning lifts every ban of its subject and leaves every other subject's status as it was. */
  lemma {:induction false} UnbanLiftsOnlySubject(bans: seq<BanEntry>, subject: string, other: string, now: int)
    ensures !Banned(WithoutSubject(bans, subject), subject, now)
    ensures other != subject ==>
      (Banned(WithoutSubject(bans, subject), other, now) <==> Banned(bans, other, now))
  {
  }

  /** Unbanning twice is the same as unbanning once. */
  lemma {:induction false} UnbanIdempotent(bans: seq<BanEntry>, subject: string)
    ensures WithoutSubject(WithoutSubject(bans, subject), subject) == WithoutSubject(bans, subject)
  {
    var r := WithoutSubject(bans, subject);
    FilterKeepsAll(r, (b: BanEntry) => b.subject != subject);
  }

  /** No two accounts share a username. */
  ghost predicate UniqueNames(users: seq<Account>) {
    forall i, j :: 0 <= i < j < |users| ==> users[i].username != users[j].username
  }

  /**
   * The account table after `u.role = role` on the first account named `name`;
   * None ("no user") when there is no such account.
   */
  function SetRole(users: seq<Account>, name: string, role: string): (r: Option<seq<Account>>)
    ensures r.None? <==> forall i :: 0 <= i < |users| ==> users[i].username != name
    ensures r.Some? ==> |r.value| == |users|
    ensures r.Some? ==> forall i :: 0 <= i < |users| ==>
      r.value[i].username == users[i].username && r.value[i].password == users[i].password
    ensures r.Some? ==> forall i :: 0 <= i < |users| ==>
      r.value[i].role == (if i == FindAccount(users, name).value then role else users[i].role)
    ensures r.Some? && UniqueNames(users) ==> UniqueNames(r.value)
  {
    match FindAccount(users, name)
    case None => None
    case Some(i) => Some(users[i := users[i].(role := role)])
  }

  /** Tables whose usernames agree position by position resolve every username to the same position. */
  lemma {:induction false} FindAccountSameNames(a: seq<Account>, b: seq<Account>, name: string)
    requires |a| == |b|
    requires forall i :: 0 <= i < |a| ==> a[i].username == b[i].username
    ensures FindAccount(a, name) == FindAccount(b, name)
  {
    if a != [] {
      FindAccountSameNames(a[1..], b[1..], name);
    }
  }

  /** After a role change the named user resolves to the new role and every other username keeps its role. */
  lemma SetRoleResolves(users: seq<Account>, name: string, role: string, other: string)
    requires SetRole(users, name, role).Some?
    ensures RoleOf(SetRole(users, name, role).value, name) == role
    ensures other != name ==> RoleOf(SetRole(users, name, role).value, other) == RoleOf(users, other)
  {
    var r := SetRole(users, name, role).value;
    FindAccountSameNames(users, r, name);
    FindAccountSameNames(users, r, other);
  }
}
