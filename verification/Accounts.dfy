/** User accounts and sign-in sessions: what each route does to the two tables, and what holds over
    every run. Each route is one step; a password stands for its hash and a token for its. */
module Accounts {
  import opened Text
  import opened IsoClock

  datatype User = User(username: string, password: string, isAdmin: bool, isActive: bool, lastLogin: string)
  datatype Session = Session(userId: nat, expiresAt: string, revokedAt: Option<string>)

  /** The user table in insertion order, a user's id being its position, and the session table by token. */
  datatype Db = Db(users: seq<User>, sessions: map<string, Session>)

  datatype Reply = Done | SignedIn(userId: nat) | Status(code: nat)

  const EXPIRY := 24 * 3600 * 1_000_000
  const MIN_PASSWORD := 12

  // ---- the routes -------------------------------------------------------------------

  function ByName(users: seq<User>, name: string, n: nat): Option<nat>
    requires n <= |users|
    decreases |users| - n
  {
    if n == |users| then None
    else if users[n].username == name then Some(n)
    else ByName(users, name, n + 1)
  }

  function Revoke(db: Db, token: string, now: Utc): Db
    requires token in db.sessions
  {
    db.(sessions := db.sessions[token := db.sessions[token].(revokedAt := Some(Iso(now)))])
  }

  /** The bulk update: every session of a user that is not yet revoked. */
  function RevokeAll(sessions: map<string, Session>, userId: nat, now: Utc): map<string, Session> {
    map t | t in sessions ::
      if sessions[t].userId == userId && sessions[t].revokedAt.None?
      then sessions[t].(revokedAt := Some(Iso(now))) else sessions[t]
  }

  /** `AuthMiddleware._authenticate_session`. */
  function Authenticate(db: Db, token: string, now: Utc): (Db, Option<nat>) {
    if token !in db.sessions || db.sessions[token].revokedAt.Some? then (db, None)
    else
      var s := db.sessions[token];
      if LexLess(s.expiresAt, Iso(now)) then (Revoke(db, token, now), None)
      else if s.userId >= |db.users| || !db.users[s.userId].isActive then (db, None)
      else (db, Some(s.userId))
  }

  /** `_get_session_user`, the reader of the sign-in routes, which also notes the time of use. */
  function SessionUser(db: Db, token: string, now: Utc): (Db, Option<nat>) {
    if token == "" then (db, None)
    else if token !in db.sessions then (db, None)
    else
      var s := db.sessions[token];
      if s.revokedAt.Some? then (db, None)
      else if LexLess(s.expiresAt, Iso(now)) then
        (db.(sessions := db.sessions[token := s.(revokedAt := Some(Iso(now)))]), None)
      else if s.userId >= |db.users| then (db, None)
      else
        var user := db.users[s.userId];
        if !user.isActive then (db, None)
        else (db.(users := db.users[s.userId := user.(lastLogin := Iso(now))]), Some(s.userId))
  }

  /** `_get_session_user_dep`, the reader behind every route that depends on the current user. */
  function DependencyUser(db: Db, token: string, now: Utc): (Db, Option<nat>) {
    if token == "" || token !in db.sessions then (db, None)
    else
      match db.sessions[token]
      case Session(_, _, Some(_)) => (db, None)
      case Session(userId, expiresAt, None) =>
        if LexLess(expiresAt, Iso(now)) then
          (Db(db.users, db.sessions[token := Session(userId, expiresAt, Some(Iso(now)))]), None)
        else if userId < |db.users| && db.users[userId].isActive then (db, Some(userId))
        else (db, None)
  }

  /** `require_admin`, the guard of the administration routes. */
  function RequireAdmin(db: Db, token: string, now: Utc): (Db, Reply) {
    var (after, user) := DependencyUser(db, token, now);
    match user
    case None => (after, Status(401))
    case Some(id) =>
      if id < |after.users| && after.users[id].isAdmin then (after, SignedIn(id)) else (after, Status(403))
  }

  /** `login`, once the throttle has let the request through. */
  function Login(db: Db, username: string, password: string, token: string, now: Utc, expires: Utc): (Db, Reply) {
    match ByName(db.users, username, 0)
    case None => (db, Status(401))
    case Some(id) =>
      if id >= |db.users| || db.users[id].password != password || !db.users[id].isActive then (db, Status(401))
      else
        (Db(db.users[id := db.users[id].(lastLogin := Iso(now))],
            db.sessions[token := Session(id, Iso(expires), None)]),
         SignedIn(id))
  }

  function Logout(db: Db, token: string, now: Utc): Db {
    if token != "" && token in db.sessions && db.sessions[token].revokedAt.None? then Revoke(db, token, now) else db
  }

  function ChangePassword(db: Db, token: string, current: string, next: string, now: Utc): (Db, Reply) {
    var (after, user) := SessionUser(db, token, now);
    match user
    case None => (after, Status(401))
    case Some(id) =>
      if id >= |after.users| || after.users[id].password != current then (after, Status(400))
      else if |next| < MIN_PASSWORD then (after, Status(400))
      else (Db(after.users[id := after.users[id].(password := next)], RevokeAll(after.sessions, id, now)), Done)
  }

  function CreateUser(db: Db, username: string, password: string, isAdmin: bool): (Db, Reply) {
    if ByName(db.users, username, 0).Some? || |password| < MIN_PASSWORD then (db, Status(400))
    else (db.(users := db.users + [User(username, password, isAdmin, true, "")]), Done)
  }

  /** Whether some other user is an active administrator. */
  predicate OtherActiveAdmin(users: seq<User>, id: nat) {
    exists k :: 0 <= k < |users| && k != id && users[k].isAdmin && users[k].isActive
  }

  function UpdateUser(db: Db, id: nat, isAdmin: Option<bool>): (Db, Reply) {
    if id >= |db.users| then (db, Status(404))
    else if isAdmin == Some(false) && db.users[id].isAdmin && !OtherActiveAdmin(db.users, id) then (db, Status(409))
    else if isAdmin.Some? then (db.(users := db.users[id := db.users[id].(isAdmin := isAdmin.value)]), Done)
    else (db, Done)
  }

  function DisableUser(db: Db, adminId: nat, id: nat, disabled: bool, now: Utc): (Db, Reply) {
    if id >= |db.users| then (db, Status(404))
    else if id == adminId && disabled then (db, Status(400))
    else if disabled && db.users[id].isAdmin && !OtherActiveAdmin(db.users, id) then (db, Status(400))
    else
      (Db(db.users[id := db.users[id].(isActive := !disabled)],
          if disabled then RevokeAll(db.sessions, id, now) else db.sessions),
       Done)
  }

  function EnableUser(db: Db, id: nat): (Db, Reply) {
    if id >= |db.users| then (db, Status(404))
    else (db.(users := db.users[id := db.users[id].(isActive := true)]), Done)
  }

  function ResetPassword(db: Db, id: nat, next: string, now: Utc): (Db, Reply) {
    if id >= |db.users| then (db, Status(404))
    else if |next| < MIN_PASSWORD then (db, Status(400))
    else (Db(db.users[id := db.users[id].(password := next)], RevokeAll(db.sessions, id, now)), Done)
  }

  function RevokeSessions(db: Db, id: nat, now: Utc): (Db, Reply) {
    if id >= |db.users| then (db, Status(404)) else (db.(sessions := RevokeAll(db.sessions, id, now)), Done)
  }

  /** `create_first_admin` as one step; module Setup takes it apart. */
  function FirstAdmin(db: Db, username: string, password: string, token: string, expires: Utc): (Db, Reply) {
    if |db.users| > 0 then (db, Status(403))
    else if |password| < MIN_PASSWORD || Trim(username) == "" then (db, Status(400))
    else (Db([User(Trim(username), password, true, true, "")], db.sessions[token := Session(0, Iso(expires), None)]),
          SignedIn(0))
  }

  // ---- runs ----------------------------------------------------------------------------

  datatype Cmd =
    | DoLogin(username: string, password: string, token: string, now: Utc, expires: Utc)
    | DoSetup(username: string, password: string, token: string, now: Utc, expires: Utc)
    | DoVisit(token: string, now: Utc)
    | DoMe(token: string, now: Utc)
    | DoGuard(token: string, now: Utc)
    | DoLogout(token: string, now: Utc)
    | DoChangePassword(token: string, current: string, next: string, now: Utc)
    | DoCreate(username: string, password: string, isAdmin: bool, now: Utc)
    | DoUpdate(id: nat, admin: Option<bool>, now: Utc)
    | DoDisable(adminId: nat, id: nat, disabled: bool, now: Utc)
    | DoEnable(id: nat, now: Utc)
    | DoReset(id: nat, next: string, now: Utc)
    | DoRevoke(id: nat, now: Utc)

  function Apply(db: Db, c: Cmd): Db {
    match c
    case DoLogin(name, password, token, now, expires) => Login(db, name, password, token, now, expires).0
    case DoSetup(name, password, token, now, expires) => FirstAdmin(db, name, password, token, expires).0
    case DoVisit(token, now) => Authenticate(db, token, now).0
    case DoMe(token, now) => SessionUser(db, token, now).0
    case DoGuard(token, now) => RequireAdmin(db, token, now).0
    case DoLogout(token, now) => Logout(db, token, now)
    case DoChangePassword(token, current, next, now) => ChangePassword(db, token, current, next, now).0
    case DoCreate(name, password, isAdmin, _) => CreateUser(db, name, password, isAdmin).0
    case DoUpdate(id, admin, _) => UpdateUser(db, id, admin).0
    case DoDisable(adminId, id, disabled, now) => DisableUser(db, adminId, id, disabled, now).0
    case DoEnable(id, _) => EnableUser(db, id).0
    case DoReset(id, next, now) => ResetPassword(db, id, next, now).0
    case DoRevoke(id, now) => RevokeSessions(db, id, now).0
  }

  /** The tokens presented or issued by a request. */
  function TokensOf(c: Cmd): set<string> {
    match c
    case DoLogin(_, _, token, _, _) => {token}
    case DoSetup(_, _, token, _, _) => {token}
    case DoVisit(token, _) => {token}
    case DoMe(token, _) => {token}
    case DoGuard(token, _) => {token}
    case DoLogout(token, _) => {token}
    case DoChangePassword(token, _, _, _) => {token}
    case _ => {}
  }

  /** The clock does not go back, and a token being issued has never been seen before. */
  predicate Legal(c: Cmd, clock: nat, seen: set<string>) {
    && Valid(c.now) && clock <= Instant(c.now)
    && ((c.DoLogin? || c.DoSetup?) ==>
        c.token !in seen && c.token != "" && Valid(c.expires) && Instant(c.expires) == Instant(c.now) + EXPIRY)
  }

  ghost predicate LegalRun(cs: seq<Cmd>, clock: nat, seen: set<string>) {
    cs == [] || (Legal(cs[0], clock, seen) && LegalRun(cs[1..], Instant(cs[0].now), seen + TokensOf(cs[0])))
  }

  function ApplyAll(db: Db, cs: seq<Cmd>): Db
    decreases |cs|
  {
    if cs == [] then db else ApplyAll(Apply(db, cs[0]), cs[1..])
  }

  function SeenAfter(seen: set<string>, cs: seq<Cmd>): set<string>
    decreases |cs|
  {
    if cs == [] then seen else SeenAfter(seen + TokensOf(cs[0]), cs[1..])
  }

  /** Every unrevoked session belongs to an active user, and every issued token has been seen. */
  ghost predicate Inv(db: Db, seen: set<string>) {
    && (forall t :: t in db.sessions && db.sessions[t].revokedAt.None? ==>
          db.sessions[t].userId < |db.users| && db.users[db.sessions[t].userId].isActive)
    && db.sessions.Keys <= seen
  }

  lemma StepKeepsInv(db: Db, c: Cmd, clock: nat, seen: set<string>)
    requires Inv(db, seen) && Legal(c, clock, seen)
    ensures Inv(Apply(db, c), seen + TokensOf(c))
  {
    hide Inv, Apply, Legal;
    if IsAdministrative(c) { AdminKeepsInv(db, c, seen); } else { SignInKeepsInv(db, c, clock, seen); }
  }

  predicate IsAdministrative(c: Cmd) {
    c.DoCreate? || c.DoUpdate? || c.DoDisable? || c.DoEnable? || c.DoReset? || c.DoRevoke?
  }

  lemma AdminKeepsInv(db: Db, c: Cmd, seen: set<string>)
    requires Inv(db, seen) && IsAdministrative(c)
    ensures Inv(Apply(db, c), seen + TokensOf(c))
  {
    hide Iso, OtherActiveAdmin, ByName;
  }

  lemma SignInKeepsInv(db: Db, c: Cmd, clock: nat, seen: set<string>)
    requires Inv(db, seen) && Legal(c, clock, seen) && !IsAdministrative(c)
    ensures Inv(Apply(db, c), seen + TokensOf(c))
  {
    hide LexLess, Iso, ByName, Trim;
  }

  lemma {:induction false} RunKeepsInv(db: Db, cs: seq<Cmd>, clock: nat, seen: set<string>)
    requires Inv(db, seen) && LegalRun(cs, clock, seen)
    ensures Inv(ApplyAll(db, cs), SeenAfter(seen, cs))
    decreases |cs|
  {
    hide Inv, Apply, TokensOf;
    if cs != [] {
      StepKeepsInv(db, cs[0], clock, seen);
      RunKeepsInv(Apply(db, cs[0]), cs[1..], Instant(cs[0].now), seen + TokensOf(cs[0]));
    }
  }

  // ---- a revocation is never taken back ----------------------------------------------------

  lemma RevokedStays(db: Db, c: Cmd, clock: nat, seen: set<string>, t: string)
    requires Inv(db, seen) && Legal(c, clock, seen)
    requires t in db.sessions && db.sessions[t].revokedAt.Some?
    ensures t in Apply(db, c).sessions && Apply(db, c).sessions[t] == db.sessions[t]
  {
    hide LexLess, Iso;
  }

  /** A token that no request can use any more: never issued, or revoked. */
  predicate Dead(db: Db, t: string) {
    t in db.sessions ==> db.sessions[t].revokedAt.Some?
  }

  /** With the invariant, a refused token is dead: an expired session is revoked on the spot, and
      an inactive user has no unrevoked session. */
  lemma RefusalKills(db: Db, seen: set<string>, t: string, now: Utc)
    requires Inv(db, seen) && Authenticate(db, t, now).1.None?
    ensures Dead(Authenticate(db, t, now).0, t)
  {
    hide LexLess, Iso;
  }

  lemma DeadIsRefused(db: Db, t: string, now: Utc)
    requires Dead(db, t)
    ensures Authenticate(db, t, now) == (db, None)
  {}

  lemma {:induction false} DeadForever(db: Db, cs: seq<Cmd>, clock: nat, seen: set<string>, t: string)
    requires Inv(db, seen) && LegalRun(cs, clock, seen) && t in seen && Dead(db, t)
    ensures Dead(ApplyAll(db, cs), t)
    decreases |cs|
  {
    hide Inv, Apply, TokensOf;
    if cs != [] {
      StepKeepsInv(db, cs[0], clock, seen);
      DeadStep(db, cs[0], clock, seen, t);
      DeadForever(Apply(db, cs[0]), cs[1..], Instant(cs[0].now), seen + TokensOf(cs[0]), t);
    }
  }

  lemma DeadStep(db: Db, c: Cmd, clock: nat, seen: set<string>, t: string)
    requires Inv(db, seen) && Legal(c, clock, seen) && t in seen && Dead(db, t)
    ensures Dead(Apply(db, c), t)
  {
    hide LexLess, Iso;
  }

  /** Once refused, refused for ever, in every run. */
  lemma RefusedForever(db: Db, seen: set<string>, t: string, now: Utc, cs: seq<Cmd>, later: Utc)
    requires Inv(db, seen) && Valid(now)
    requires Authenticate(db, t, now).1.None?
    requires LegalRun(cs, Instant(now), seen + {t})
    ensures Authenticate(ApplyAll(Authenticate(db, t, now).0, cs), t, later).1.None?
  {
    hide Inv, Authenticate;
    var after := Authenticate(db, t, now).0;
    RefusalKills(db, seen, t, now);
    VisitKeepsInv(db, seen, t, now);
    DeadForever(after, cs, Instant(now), seen + {t}, t);
    DeadIsRefused(ApplyAll(after, cs), t, later);
  }

  lemma VisitKeepsInv(db: Db, seen: set<string>, t: string, now: Utc)
    requires Inv(db, seen) && Valid(now)
    ensures Inv(Authenticate(db, t, now).0, seen + {t})
  {
    StepKeepsInv(db, DoVisit(t, now), 0, seen);
  }

  /** The requests that end a user's sessions. */
  predicate EndsSessionsOf(db: Db, c: Cmd, id: nat) {
    match c
    case DoDisable(adminId, user, disabled, now) =>
      user == id && disabled && DisableUser(db, adminId, id, disabled, now).1.Done?
    case DoReset(user, next, now) => user == id && ResetPassword(db, id, next, now).1.Done?
    case DoRevoke(user, now) => user == id && RevokeSessions(db, id, now).1.Done?
    case DoChangePassword(token, current, next, now) =>
      SessionUser(db, token, now).1 == Some(id) && ChangePassword(db, token, current, next, now).1.Done?
    case _ => false
  }

  /** After a disable, password reset, revocation or password change, no session the user had
      comes back, whatever follows: enabling the account again revives no old token. */
  lemma EndedSessionsStayEnded(db: Db, c: Cmd, id: nat, clock: nat, seen: set<string>, t: string, cs: seq<Cmd>,
                               later: Utc)
    requires Inv(db, seen) && Legal(c, clock, seen) && EndsSessionsOf(db, c, id)
    requires t in db.sessions && db.sessions[t].userId == id
    requires LegalRun(cs, Instant(c.now), seen + TokensOf(c))
    ensures Authenticate(ApplyAll(Apply(db, c), cs), t, later).1.None?
  {
    hide Inv, Apply, Authenticate, TokensOf;
    StepKeepsInv(db, c, clock, seen);
    EndKills(db, c, id, t);
    assert t in seen by { KnownTokens(db, seen, t); }
    DeadForever(Apply(db, c), cs, Instant(c.now), seen + TokensOf(c), t);
    DeadIsRefused(ApplyAll(Apply(db, c), cs), t, later);
  }

  lemma KnownTokens(db: Db, seen: set<string>, t: string)
    requires Inv(db, seen) && t in db.sessions
    ensures t in seen
  {}

  lemma EndKills(db: Db, c: Cmd, id: nat, t: string)
    requires EndsSessionsOf(db, c, id) && t in db.sessions && db.sessions[t].userId == id
    ensures Dead(Apply(db, c), t)
  {
    hide LexLess, Iso;
  }

  // ---- acceptance ---------------------------------------------------------------------------

  /** The three readers of the session table, each written out from its own code, give the same
      answer and leave the same sessions; only the one of the sign-in routes touches a user. */
  lemma ReadersAgree(db: Db, token: string, now: Utc)
    requires token != ""
    ensures SessionUser(db, token, now).1 == Authenticate(db, token, now).1
    ensures SessionUser(db, token, now).0.sessions == Authenticate(db, token, now).0.sessions
    ensures |SessionUser(db, token, now).0.users| == |db.users|
    ensures forall k :: 0 <= k < |db.users| ==>
      SessionUser(db, token, now).0.users[k] ==
      if SessionUser(db, token, now).1 == Some(k) then db.users[k].(lastLogin := Iso(now)) else db.users[k]
    ensures DependencyUser(db, token, now) == Authenticate(db, token, now)
  {
    hide LexLess, Iso;
  }

  /** The guard lets through exactly the tokens that the middleware accepts for an administrator,
      so the caller of an administration route is an active administrator. */
  lemma GuardAdmitsIff(db: Db, token: string, now: Utc, id: nat)
    requires token != ""
    ensures RequireAdmin(db, token, now).1 == SignedIn(id) <==>
      Authenticate(db, token, now).1 == Some(id) && id < |db.users| && db.users[id].isAdmin
    ensures RequireAdmin(db, token, now).1 == SignedIn(id) ==>
      RequireAdmin(db, token, now).0 == db && db.users[id].isActive
  {
    hide LexLess, Iso;
  }

  /** A session is accepted exactly until its expiry instant, although the code compares strings. */
  lemma AcceptedIff(db: Db, seen: set<string>, token: string, now: Utc, expires: Utc)
    requires Inv(db, seen) && Valid(now) && Valid(expires)
    requires token in db.sessions && db.sessions[token].expiresAt == Iso(expires)
    ensures Authenticate(db, token, now).1.Some? <==>
      db.sessions[token].revokedAt.None? && Instant(now) <= Instant(expires)
  {
    hide LexLess, Iso, Instant;
    StringOrderIsTimeOrder(expires, now);
  }

  /** A sign-in succeeds for the active user whose name comes first with that password, and its
      token works for exactly 24 hours if nothing else happens. */
  lemma LoginLasts(db: Db, seen: set<string>, name: string, password: string, token: string, now: Utc, expires: Utc,
                   later: Utc)
    requires Inv(db, seen) && Legal(DoLogin(name, password, token, now, expires), 0, seen) && Valid(later)
    ensures Login(db, name, password, token, now, expires).1.SignedIn? <==>
      exists id :: 0 <= id < |db.users| && db.users[id].username == name && db.users[id].password == password
        && db.users[id].isActive && (forall k :: 0 <= k < id ==> db.users[k].username != name)
    ensures Login(db, name, password, token, now, expires).1.SignedIn? ==>
      (Authenticate(Login(db, name, password, token, now, expires).0, token, later).1.Some?
       <==> Instant(later) <= Instant(now) + 24 * 3600 * 1_000_000)
  {
    hide LexLess, Iso, Instant;
    ByNameIsFirst(db.users, name, 0);
    var c := DoLogin(name, password, token, now, expires);
    StepKeepsInv(db, c, 0, seen);
    if Login(db, name, password, token, now, expires).1.SignedIn? {
      AcceptedIff(Login(db, name, password, token, now, expires).0, seen + TokensOf(c), token, later, expires);
    }
  }

  lemma {:induction false} ByNameIsFirst(users: seq<User>, name: string, n: nat)
    requires n <= |users|
    ensures match ByName(users, name, n)
      case None => forall k :: n <= k < |users| ==> users[k].username != name
      case Some(id) =>
        n <= id < |users| && users[id].username == name && forall k :: n <= k < id ==> users[k].username != name
    decreases |users| - n
  {
    if n < |users| && users[n].username != name { ByNameIsFirst(users, name, n + 1); }
  }

  // ---- administrators -------------------------------------------------------------------------

  ghost predicate HasActiveAdmin(users: seq<User>) {
    exists k :: 0 <= k < |users| && users[k].isAdmin && users[k].isActive
  }

  /** No request takes the last active administrator away. */
  lemma AdminRemains(db: Db, c: Cmd)
    requires HasActiveAdmin(db.users)
    ensures HasActiveAdmin(Apply(db, c).users)
  {
    hide LexLess, Iso, RevokeAll;
    var k :| 0 <= k < |db.users| && db.users[k].isAdmin && db.users[k].isActive;
    var after := Apply(db, c).users;
    if c.DoUpdate? || c.DoDisable? {
      if c.id == k && OtherActiveAdmin(db.users, k) {
        var m :| 0 <= m < |db.users| && m != k && db.users[m].isAdmin && db.users[m].isActive;
        assert after[m] == db.users[m];
      }
    }
    assert k < |after|;
    assert (after[k].isAdmin && after[k].isActive) || ((c.DoUpdate? || c.DoDisable?) && c.id == k);
  }

  /** For a caller who is an active administrator the test for another one never refuses a
      disable: the only refusals are an unknown user and oneself. */
  lemma DisableRefusedIff(db: Db, adminId: nat, id: nat, disabled: bool, now: Utc)
    requires adminId < |db.users| && db.users[adminId].isAdmin && db.users[adminId].isActive
    ensures DisableUser(db, adminId, id, disabled, now).1 != Done <==> id >= |db.users| || (disabled && id == adminId)
    ensures DisableUser(db, adminId, id, disabled, now).1 != Done ==>
      DisableUser(db, adminId, id, disabled, now).0 == db
    ensures !disabled ==> DisableUser(db, adminId, id, disabled, now) == EnableUser(db, id)
  {
    hide RevokeAll;
    if id != adminId { assert OtherActiveAdmin(db.users, id); }
  }

  /** Demotion by an active administrator is refused exactly for that administrator as the last one. */
  lemma DemotionRefusedIff(db: Db, adminId: nat, id: nat)
    requires adminId < |db.users| && db.users[adminId].isAdmin && db.users[adminId].isActive && id < |db.users|
    ensures UpdateUser(db, id, Some(false)).1 == Status(409) <==>
      id == adminId && forall k :: 0 <= k < |db.users| && k != id ==> !(db.users[k].isAdmin && db.users[k].isActive)
  {
    if id != adminId { assert OtherActiveAdmin(db.users, id); }
  }

  // ---- one request, as a caller sees it -----------------------------------------------------

  /** What every request keeps: dead tokens stay dead and an active administrator remains. */
  ghost predicate Kept(before: Db, after: Db, seen: set<string>) {
    && (forall t :: t in seen && Dead(before, t) ==> Dead(after, t))
    && (HasActiveAdmin(before.users) ==> HasActiveAdmin(after.users))
  }

  lemma StepKeeps(db: Db, c: Cmd, clock: nat, seen: set<string>)
    requires Inv(db, seen) && Legal(c, clock, seen)
    ensures Inv(Apply(db, c), seen + TokensOf(c)) && Kept(db, Apply(db, c), seen)
  {
    hide Inv, Apply, Legal, TokensOf, HasActiveAdmin, Dead;
    StepKeepsInv(db, c, clock, seen);
    forall t | t in seen && Dead(db, t) ensures Dead(Apply(db, c), t) { DeadStep(db, c, clock, seen, t); }
    if HasActiveAdmin(db.users) { AdminRemains(db, c); }
  }

  /** No token of this user is alive. */
  ghost predicate SignedOut(db: Db, id: nat) {
    forall t :: t in db.sessions && db.sessions[t].userId == id ==> Dead(db, t)
  }

  lemma RevokeAllSignsOut(db: Db, id: nat, now: Utc)
    ensures SignedOut(db.(sessions := RevokeAll(db.sessions, id, now)), id)
  {}

  // ---- whom a request leaves alone ----------------------------------------------------------

  /** The sessions of everybody but `id` are as they were. */
  ghost predicate OthersStay(before: Db, after: Db, id: nat) {
    forall t :: t in before.sessions && before.sessions[t].userId != id ==>
      t in after.sessions && after.sessions[t] == before.sessions[t]
  }

  /** Every session but that of this token is as it was. */
  ghost predicate OtherTokensStay(before: Db, after: Db, token: string) {
    forall t :: t != token && t in before.sessions ==> t in after.sessions && after.sessions[t] == before.sessions[t]
  }

  lemma AcceptingSpares(db: Db, token: string, now: Utc)
    ensures SessionUser(db, token, now).1.Some? ==> SessionUser(db, token, now).0.sessions == db.sessions
  {
    hide LexLess, Iso;
  }

  lemma RevokeAllSpares(db: Db, id: nat, now: Utc)
    ensures OthersStay(db, db.(sessions := RevokeAll(db.sessions, id, now)), id)
  {}

  /** Token `t` is a session of user `id`, good until `expires`. */
  ghost predicate Alive(db: Db, t: string, id: nat, expires: Utc) {
    && t in db.sessions && db.sessions[t] == Session(id, Iso(expires), None)
    && id < |db.users| && db.users[id].isActive
  }

  /** A request that neither signs the token out nor ends the sessions of its user. */
  predicate Spares(db: Db, c: Cmd, t: string, id: nat) {
    !(c.DoLogout? && c.token == t) && !EndsSessionsOf(db, c, id)
  }

  ghost predicate SparesRun(db: Db, cs: seq<Cmd>, t: string, id: nat)
    decreases |cs|
  {
    cs == [] || (Spares(db, cs[0], t, id) && SparesRun(Apply(db, cs[0]), cs[1..], t, id))
  }

  lemma AliveStep(db: Db, c: Cmd, clock: nat, seen: set<string>, t: string, id: nat, expires: Utc)
    requires Legal(c, clock, seen) && t in seen && t != "" && IsoClock.Valid(expires)
    requires Alive(db, t, id, expires) && Spares(db, c, t, id) && Instant(c.now) <= Instant(expires)
    ensures Alive(Apply(db, c), t, id, expires)
  {
    hide LexLess, Iso, Instant, Trim, ByName, OtherActiveAdmin;
    StringOrderIsTimeOrder(expires, c.now);
    if IsAdministrative(c) { AliveAdministered(db, c, t, id, expires); }
  }

  lemma AliveAdministered(db: Db, c: Cmd, t: string, id: nat, expires: Utc)
    requires IsAdministrative(c) && Alive(db, t, id, expires) && Spares(db, c, t, id)
    ensures Alive(Apply(db, c), t, id, expires)
  {
    hide Iso, ByName, OtherActiveAdmin;
  }

  /** The dual of being refused for ever: a token stays accepted through every run that neither signs
      it out nor ends the sessions of its user, at every instant up to its expiry. */
  lemma {:induction false} AcceptedUntilEnded(db: Db, cs: seq<Cmd>, clock: nat, seen: set<string>, t: string, id: nat,
                                              expires: Utc, later: Utc)
    requires LegalRun(cs, clock, seen) && t in seen && t != "" && IsoClock.Valid(expires) && IsoClock.Valid(later)
    requires Alive(db, t, id, expires) && SparesRun(db, cs, t, id)
    requires forall k :: 0 <= k < |cs| ==> IsoClock.Valid(cs[k].now) && Instant(cs[k].now) <= Instant(expires)
    requires Instant(later) <= Instant(expires)
    ensures Authenticate(ApplyAll(db, cs), t, later) == (ApplyAll(db, cs), Some(id))
    decreases |cs|
  {
    hide Apply, Legal, Spares, Instant, Iso, LexLess, TokensOf;
    if cs == [] {
      StringOrderIsTimeOrder(expires, later);
    } else {
      AliveStep(db, cs[0], clock, seen, t, id, expires);
      assert forall k :: 0 <= k < |cs[1..]| ==> cs[1..][k] == cs[k + 1];
      AcceptedUntilEnded(Apply(db, cs[0]), cs[1..], Instant(cs[0].now), seen + TokensOf(cs[0]), t, id, expires, later);
    }
  }

  // ---- what a request does to the accounts -----------------------------------------------------

  /** Exactly this password signs the user in. */
  ghost predicate SignsInWith(db: Db, id: nat, password: string) {
    id < |db.users| && forall given, token, now, expires ::
      Login(db, db.users[id].username, given, token, now, expires).1 == SignedIn(id) <==> given == password
  }

  /** No password signs the user in. */
  ghost predicate CannotSignIn(db: Db, id: nat) {
    id < |db.users| && forall given, token, now, expires ::
      Login(db, db.users[id].username, given, token, now, expires).1 != SignedIn(id)
  }

  /** The user is the first of that name, so that the name signs in nobody else. */
  ghost predicate OwnsName(users: seq<User>, id: nat) {
    id < |users| && forall k :: 0 <= k < id ==> users[k].username != users[id].username
  }

  lemma SignsInIff(db: Db, id: nat)
    requires OwnsName(db.users, id)
    ensures db.users[id].isActive ==> SignsInWith(db, id, db.users[id].password)
    ensures !db.users[id].isActive ==> CannotSignIn(db, id)
  {
    hide Iso;
    ByNameIsFirst(db.users, db.users[id].username, 0);
  }

  ghost predicate OtherUsersStay(before: Db, after: Db, id: nat) {
    |after.users| == |before.users| && forall k :: 0 <= k < |before.users| && k != id ==>
      after.users[k] == before.users[k]
  }

  lemma NamesStay(before: Db, after: Db, id: nat)
    requires OwnsName(before.users, id) && OtherUsersStay(before, after, id)
    requires after.users[id].username == before.users[id].username
    ensures OwnsName(after.users, id)
  {}

  /** After a reset or a change of password exactly the new one signs the user in. */
  lemma PasswordReplaced(db: Db, id: nat, next: string, now: Utc)
    requires OwnsName(db.users, id)
    ensures var (after, reply) := ResetPassword(db, id, next, now);
      && (reply == Done <==> |next| >= 12)
      && OtherUsersStay(db, after, id)
      && (reply == Done && db.users[id].isActive ==> SignsInWith(after, id, next))
      && (reply == Done && !db.users[id].isActive ==> CannotSignIn(after, id))
  {
    hide Iso, Login, RevokeAll, SignsInWith, CannotSignIn;
    var after := ResetPassword(db, id, next, now).0;
    NamesStay(db, after, id);
    SignsInIff(after, id);
  }

  /** A user who presents an accepted token and the right password may replace it, by one of at
      least twelve characters, and then exactly that one signs in. */
  lemma OwnPasswordReplaced(db: Db, id: nat, token: string, current: string, next: string, now: Utc)
    requires token != "" && OwnsName(db.users, id) && Authenticate(db, token, now).1 == Some(id)
    ensures var (after, reply) := ChangePassword(db, token, current, next, now);
      && (reply == Done <==> current == db.users[id].password && |next| >= 12)
      && OtherUsersStay(db, after, id)
      && (reply == Done ==> SignsInWith(after, id, next))
      && (reply != Done ==> after.users[id].password == db.users[id].password && after.sessions == db.sessions)
  {
    hide Iso, LexLess, Login, RevokeAll, SignsInWith, CannotSignIn;
    var after := ChangePassword(db, token, current, next, now).0;
    NamesStay(db, after, id);
    SignsInIff(after, id);
  }

  /** Disabling locks the user out, enabling lets the same password in again, and neither touches
      another account. */
  lemma DisableAndEnable(db: Db, adminId: nat, id: nat, now: Utc)
    requires OwnsName(db.users, id)
    ensures var (after, reply) := DisableUser(db, adminId, id, true, now);
      OtherUsersStay(db, after, id) && (reply == Done ==> CannotSignIn(after, id))
    ensures var (after, reply) := EnableUser(db, id);
      OtherUsersStay(db, after, id) && reply == Done && SignsInWith(after, id, db.users[id].password)
  {
    hide Iso, Login, RevokeAll, SignsInWith, CannotSignIn, OtherActiveAdmin;
    var off, on := DisableUser(db, adminId, id, true, now).0, EnableUser(db, id).0;
    NamesStay(db, off, id);
    NamesStay(db, on, id);
    SignsInIff(off, id);
    SignsInIff(on, id);
  }

  /** A user is created exactly when the name is free and the password long enough; the account is
      active, an administrator exactly when asked for, and that password signs it in. */
  lemma CreatedSignsIn(db: Db, username: string, password: string, isAdmin: bool)
    ensures var (after, reply) := CreateUser(db, username, password, isAdmin);
      && (reply == Done <==> |password| >= 12 && forall k :: 0 <= k < |db.users| ==> db.users[k].username != username)
      && (reply != Done ==> after == db)
      && (reply == Done ==>
            && |after.users| == |db.users| + 1 && after.users[..|db.users|] == db.users && after.sessions == db.sessions
            && after.users[|db.users|].username == username && (after.users[|db.users|].isAdmin <==> isAdmin)
            && SignsInWith(after, |db.users|, password))
  {
    hide Iso, Login, SignsInWith, CannotSignIn;
    ByNameIsFirst(db.users, username, 0);
    var (after, reply) := CreateUser(db, username, password, isAdmin);
    if reply == Done { SignsInIff(after, |db.users|); }
  }

  /** An update sets the flag to what is asked and touches nothing else. */
  lemma UpdateSetsFlag(db: Db, id: nat, isAdmin: bool)
    requires id < |db.users|
    ensures var (after, reply) := UpdateUser(db, id, Some(isAdmin));
      && OtherUsersStay(db, after, id) && after.sessions == db.sessions
      && after.users[id] == db.users[id].(isAdmin := after.users[id].isAdmin)
      && (reply == Done ==> (after.users[id].isAdmin <==> isAdmin))
      && (reply != Done ==> after == db)
  {
    hide OtherActiveAdmin;
  }
}
