/** The sign-in and administration routes as they update the tables. */
module AuthService {
  import opened Text
  import opened IsoClock
  import opened Accounts
  import Throttle

  class Service {
    var users: seq<User>
    var sessions: map<string, Session>
    const failedLogins: Throttle.FailedLogins
    ghost var seen: set<string>  // the tokens presented or issued so far

    function Tables(): Db
      reads this
    {
      Db(users, sessions)
    }

    /** Every unrevoked session belongs to an active user, and the throttle is sound. */
    ghost predicate Valid()
      reads this, failedLogins
    {
      failedLogins.Valid() && Inv(Tables(), seen)
    }

    constructor ()
      ensures users == [] && sessions == map[] && Valid() && fresh(failedLogins)
    {
      users, sessions, seen := [], map[], {};
      failedLogins := new Throttle.FailedLogins();
    }

    static function LoginKey(ip: string, username: string): Throttle.Pair {
      (ip, Normalized(username))
    }

    /** `login`, with the clock readings of the throttle and of the session passed in. */
    method SignIn(ip: string, username: string, password: string, token: string,
                  checkedAt: real, sweptAt: real, failedAt: real, now: Utc, expires: Utc)
      returns (reply: Reply, retryAfter: int)
      requires Valid() && failedLogins.clock <= checkedAt <= sweptAt <= failedAt
      requires Legal(DoLogin(username, password, token, now, expires), 0, seen)
      modifies this, failedLogins
      ensures Valid() && seen == old(seen) + {token} && Kept(old(Tables()), Tables(), old(seen))
      ensures var key := LoginKey(ip, username);
        var log := old(failedLogins.log);
        var wait := Throttle.WaitOf(Throttle.TimesOf(log, key), checkedAt);
        var (after, outcome) := Login(old(Tables()), username, password, token, now, expires);
        var user := ByName(old(users), username, 0);
        var known := user.Some? && user.value < |old(users)| && old(users)[user.value].password == password;
        && (wait > 0 ==> reply == Status(429) && retryAfter == wait)
        && (wait > 0 ==> Tables() == old(Tables()) && failedLogins.log == log)
        && (wait <= 0 ==> reply == outcome && Tables() == after && retryAfter == 0)
        && (wait <= 0 && !known ==> failedLogins.log == log[key := Throttle.TimesOf(log, key) + [failedAt]])
        && (wait <= 0 && known ==> failedLogins.log == log - {key})
    {
      hide Throttle.WaitOf, Throttle.Coupled, LexLess, Normalized, Iso, Inv, Kept, Legal;
      SignInKeeps(Tables(), username, password, token, now, expires, seen);
      seen := seen + {token};
      var key := LoginKey(ip, username);
      retryAfter := failedLogins.WaitSeconds(key, checkedAt);
      if retryAfter > 0 { return Status(429), retryAfter; }
      retryAfter := 0;
      var user := ByName(users, username, 0);
      if user.None? || user.value >= |users| || users[user.value].password != password {
        failedLogins.RecordFailure(key, sweptAt, failedAt);
        return Status(401), 0;
      }
      failedLogins.Forget(key);
      var id := user.value;
      if !users[id].isActive { return Status(401), 0; }
      sessions := sessions[token := Session(id, Iso(expires), None)];
      users := users[id := users[id].(lastLogin := Iso(now))];
      reply := SignedIn(id);
    }

    /** `AuthMiddleware._authenticate_session`. */
    method AuthenticateSession(token: string, now: Utc) returns (user: Option<nat>)
      requires Valid() && IsoClock.Valid(now)
      modifies this
      ensures Valid() && seen == old(seen) + {token} && Kept(old(Tables()), Tables(), old(seen))
      ensures (Tables(), user) == Authenticate(old(Tables()), token, now)
      ensures user.None? ==> Dead(Tables(), token)
      ensures OtherTokensStay(old(Tables()), Tables(), token)
    {
      hide LexLess, Iso, Inv, Kept, Dead;
      VisitKeeps(Tables(), token, now, seen);
      seen := seen + {token};
      if token !in sessions || sessions[token].revokedAt.Some? { return None; }
      var session := sessions[token];
      if LexLess(session.expiresAt, Iso(now)) {
        sessions := sessions[token := session.(revokedAt := Some(Iso(now)))];
        return None;
      }
      if session.userId >= |users| || !users[session.userId].isActive { return None; }
      user := Some(session.userId);
    }

    /** `_get_session_user`. */
    method GetSessionUser(token: string, now: Utc) returns (user: Option<nat>)
      requires Valid() && IsoClock.Valid(now)
      modifies this
      ensures Valid() && seen == old(seen) + {token} && Kept(old(Tables()), Tables(), old(seen))
      ensures (Tables(), user) == SessionUser(old(Tables()), token, now)
      ensures token != "" && user.None? ==> Dead(Tables(), token)
      ensures OtherTokensStay(old(Tables()), Tables(), token)
    {
      hide LexLess, Iso, Inv, Kept, Dead;
      MeKeeps(Tables(), token, now, seen);
      seen := seen + {token};
      if token == "" { return None; }
      if token !in sessions { return None; }
      var session := sessions[token];
      if session.revokedAt.Some? { return None; }
      if LexLess(session.expiresAt, Iso(now)) {
        session := session.(revokedAt := Some(Iso(now)));
        sessions := sessions[token := session];
        return None;
      }
      if session.userId >= |users| { return None; }
      if !users[session.userId].isActive { return None; }
      users := users[session.userId := users[session.userId].(lastLogin := Iso(now))];
      user := Some(session.userId);
    }

    /** `_get_session_user_dep`. */
    method GetDependencyUser(token: string, now: Utc) returns (user: Option<nat>)
      requires Valid() && IsoClock.Valid(now)
      modifies this
      ensures Valid() && seen == old(seen) + {token} && Kept(old(Tables()), Tables(), old(seen))
      ensures (Tables(), user) == DependencyUser(old(Tables()), token, now)
      ensures token != "" && user.None? ==> Dead(Tables(), token)
      ensures OtherTokensStay(old(Tables()), Tables(), token)
    {
      hide LexLess, Iso, Inv, Kept, Dead;
      GuardKeeps(Tables(), token, now, seen);
      seen := seen + {token};
      if token == "" { return None; }
      if token !in sessions || sessions[token].revokedAt.Some? { return None; }
      var session := sessions[token];
      if LexLess(session.expiresAt, Iso(now)) {
        sessions := sessions[token := Session(session.userId, session.expiresAt, Some(Iso(now)))];
        return None;
      }
      if session.userId < |users| && users[session.userId].isActive { return Some(session.userId); }
      user := None;
    }

    /** `require_admin`: whoever gets past it is an active administrator. */
    method AdmitAdmin(token: string, now: Utc) returns (reply: Reply)
      requires Valid() && IsoClock.Valid(now)
      modifies this
      ensures Valid() && seen == old(seen) + {token} && Kept(old(Tables()), Tables(), old(seen))
      ensures (Tables(), reply) == RequireAdmin(old(Tables()), token, now)
      ensures reply.SignedIn? ==> reply.userId < |users| && users[reply.userId].isAdmin && users[reply.userId].isActive
    {
      hide LexLess, Iso, Inv, Kept, Dead;
      var user := GetDependencyUser(token, now);
      if user.None? { return Status(401); }
      if user.value >= |users| || !users[user.value].isAdmin { return Status(403); }
      reply := SignedIn(user.value);
    }

    method SignOut(token: string, now: Utc)
      requires Valid() && IsoClock.Valid(now)
      modifies this
      ensures Valid() && seen == old(seen) + {token} && Kept(old(Tables()), Tables(), old(seen))
      ensures Tables() == Logout(old(Tables()), token, now)
      ensures token != "" ==> Dead(Tables(), token)
      ensures OtherTokensStay(old(Tables()), Tables(), token)
    {
      hide Inv, Kept, Iso;
      StepKeeps(Tables(), DoLogout(token, now), 0, seen);
      seen := seen + {token};
      if token != "" && token in sessions && sessions[token].revokedAt.None? {
        sessions := sessions[token := sessions[token].(revokedAt := Some(Iso(now)))];
      }
    }

    /** The bulk update behind every route that ends a user's sessions. */
    method RevokeUnrevoked(userId: nat, now: Utc)
      modifies this`sessions
      ensures sessions == RevokeAll(old(sessions), userId, now)
      ensures OthersStay(old(Tables()), Tables(), userId)
    {
      var open := set t | t in sessions && sessions[t].userId == userId && sessions[t].revokedAt.None?;
      sessions := sessions + map t | t in open :: sessions[t].(revokedAt := Some(Iso(now)));
    }

    method ChangeOwnPassword(token: string, current: string, next: string, now: Utc) returns (reply: Reply)
      requires Valid() && IsoClock.Valid(now)
      modifies this
      ensures Valid() && seen == old(seen) + {token} && Kept(old(Tables()), Tables(), old(seen))
      ensures (Tables(), reply) == ChangePassword(old(Tables()), token, current, next, now)
      ensures reply.Done? ==>
        var user := SessionUser(old(Tables()), token, now).1;
        user.Some? && SignedOut(Tables(), user.value)
      ensures reply.Done? ==> OthersStay(old(Tables()), Tables(), SessionUser(old(Tables()), token, now).1.value)
      ensures !reply.Done? ==> OtherTokensStay(old(Tables()), Tables(), token)
    {
      hide RevokeAll, SessionUser, Inv, Kept, SignedOut, Dead;
      ghost var before, known := Tables(), seen;
      PasswordKeeps(before, token, current, next, now, known);
      AcceptingSpares(before, token, now);
      var user := GetSessionUser(token, now);
      if user.None? { return Status(401); }
      var id := user.value;
      if id >= |users| || users[id].password != current { return Status(400); }
      if |next| < MIN_PASSWORD { return Status(400); }
      users := users[id := users[id].(password := next)];
      RevokeAllSignsOut(Tables(), id, now);
      RevokeAllSpares(Tables(), id, now);
      RevokeUnrevoked(id, now);
      reply := Done;
    }

    /** Creating, updating and enabling read the clock only for columns outside the model. */
    method Create(username: string, password: string, isAdmin: bool, ghost now: Utc) returns (reply: Reply)
      requires Valid() && IsoClock.Valid(now)
      modifies this
      ensures Valid() && seen == old(seen) && Kept(old(Tables()), Tables(), seen)
      ensures (Tables(), reply) == CreateUser(old(Tables()), username, password, isAdmin)
    {
      hide Inv, Kept;
      StepKeeps(Tables(), DoCreate(username, password, isAdmin, now), 0, seen);
      assert seen + {} == seen;
      var existing := ByName(users, username, 0);
      if existing.Some? { return Status(400); }
      if |password| < MIN_PASSWORD { return Status(400); }
      users := users + [User(username, password, isAdmin, true, "")];
      reply := Done;
    }

    /** The count of other active administrators, as a yes or no. */
    method AnotherActiveAdmin(id: nat) returns (found: bool)
      ensures found == OtherActiveAdmin(users, id)
    {
      found := false;
      for k := 0 to |users|
        invariant found == exists j :: 0 <= j < k && j != id && users[j].isAdmin && users[j].isActive
      {
        if k != id && users[k].isAdmin && users[k].isActive { found := true; }
      }
    }

    method Update(id: nat, isAdmin: Option<bool>, ghost now: Utc) returns (reply: Reply)
      requires Valid() && IsoClock.Valid(now)
      modifies this
      ensures Valid() && seen == old(seen) && Kept(old(Tables()), Tables(), seen)
      ensures (Tables(), reply) == UpdateUser(old(Tables()), id, isAdmin)
    {
      hide Inv, Kept;
      StepKeeps(Tables(), DoUpdate(id, isAdmin, now), 0, seen);
      assert seen + {} == seen;
      if id >= |users| { return Status(404); }
      if isAdmin == Some(false) && users[id].isAdmin {
        var another := AnotherActiveAdmin(id);
        if !another { return Status(409); }
      }
      if isAdmin.Some? { users := users[id := users[id].(isAdmin := isAdmin.value)]; }
      reply := Done;
    }

    method Disable(adminId: nat, id: nat, disabled: bool, now: Utc) returns (reply: Reply)
      requires Valid() && IsoClock.Valid(now)
      modifies this
      ensures Valid() && seen == old(seen) && Kept(old(Tables()), Tables(), seen)
      ensures (Tables(), reply) == DisableUser(old(Tables()), adminId, id, disabled, now)
      ensures reply.Done? && disabled ==> SignedOut(Tables(), id)
      ensures OthersStay(old(Tables()), Tables(), id)
    {
      hide RevokeAll, Inv, Kept, SignedOut;
      StepKeeps(Tables(), DoDisable(adminId, id, disabled, now), 0, seen);
      assert seen + {} == seen;
      if id >= |users| { return Status(404); }
      if id == adminId && disabled { return Status(400); }
      if disabled && users[id].isAdmin {
        var another := AnotherActiveAdmin(id);
        if !another { return Status(400); }
      }
      users := users[id := users[id].(isActive := !disabled)];
      if disabled {
        RevokeAllSignsOut(Tables(), id, now);
        RevokeAllSpares(Tables(), id, now);
        RevokeUnrevoked(id, now);
      }
      reply := Done;
    }

    method Enable(id: nat, ghost now: Utc) returns (reply: Reply)
      requires Valid() && IsoClock.Valid(now)
      modifies this
      ensures Valid() && seen == old(seen) && Kept(old(Tables()), Tables(), seen)
      ensures (Tables(), reply) == EnableUser(old(Tables()), id)
    {
      hide Inv, Kept;
      StepKeeps(Tables(), DoEnable(id, now), 0, seen);
      assert seen + {} == seen;
      if id >= |users| { return Status(404); }
      users := users[id := users[id].(isActive := true)];
      reply := Done;
    }

    method Reset(id: nat, next: string, now: Utc) returns (reply: Reply)
      requires Valid() && IsoClock.Valid(now)
      modifies this
      ensures Valid() && seen == old(seen) && Kept(old(Tables()), Tables(), seen)
      ensures (Tables(), reply) == ResetPassword(old(Tables()), id, next, now)
      ensures reply.Done? ==> SignedOut(Tables(), id)
      ensures OthersStay(old(Tables()), Tables(), id)
    {
      hide RevokeAll, Inv, Kept, SignedOut;
      StepKeeps(Tables(), DoReset(id, next, now), 0, seen);
      assert seen + {} == seen;
      if id >= |users| { return Status(404); }
      if |next| < MIN_PASSWORD { return Status(400); }
      users := users[id := users[id].(password := next)];
      RevokeAllSignsOut(Tables(), id, now);
      RevokeAllSpares(Tables(), id, now);
      RevokeUnrevoked(id, now);
      reply := Done;
    }

    method RevokeUser(id: nat, now: Utc) returns (reply: Reply)
      requires Valid() && IsoClock.Valid(now)
      modifies this
      ensures Valid() && seen == old(seen) && Kept(old(Tables()), Tables(), seen)
      ensures (Tables(), reply) == RevokeSessions(old(Tables()), id, now)
      ensures reply.Done? ==> SignedOut(Tables(), id)
      ensures OthersStay(old(Tables()), Tables(), id)
    {
      hide RevokeAll, Inv, Kept, SignedOut;
      StepKeeps(Tables(), DoRevoke(id, now), 0, seen);
      assert seen + {} == seen;
      if id >= |users| { return Status(404); }
      RevokeAllSignsOut(Tables(), id, now);
      RevokeAllSpares(Tables(), id, now);
      RevokeUnrevoked(id, now);
      reply := Done;
    }
  }

  // ---- what the readers and sign-in keep ------------------------------------------------

  lemma SeenLater(db: Db, seen: set<string>, token: string)
    requires Inv(db, seen)
    ensures Inv(db, seen + {token}) && Kept(db, db, seen)
  {}

  lemma SignInKeeps(db: Db, name: string, password: string, token: string, now: Utc, expires: Utc, seen: set<string>)
    requires Inv(db, seen) && Legal(DoLogin(name, password, token, now, expires), 0, seen)
    ensures Inv(db, seen + {token}) && Kept(db, db, seen)
    ensures var after := Login(db, name, password, token, now, expires).0;
      Inv(after, seen + {token}) && Kept(db, after, seen)
  {
    hide Inv, Kept, Login, Legal;
    SeenLater(db, seen, token);
    StepKeeps(db, DoLogin(name, password, token, now, expires), 0, seen);
  }

  lemma VisitKeeps(db: Db, token: string, now: Utc, seen: set<string>)
    requires Inv(db, seen) && IsoClock.Valid(now)
    ensures var (after, user) := Authenticate(db, token, now);
      Inv(after, seen + {token}) && Kept(db, after, seen) && (user.None? ==> Dead(after, token))
  {
    hide Inv, Kept, Dead, Authenticate;
    StepKeeps(db, DoVisit(token, now), 0, seen);
    if Authenticate(db, token, now).1.None? { RefusalKills(db, seen, token, now); }
  }

  lemma MeKeeps(db: Db, token: string, now: Utc, seen: set<string>)
    requires Inv(db, seen) && IsoClock.Valid(now)
    ensures var (after, user) := SessionUser(db, token, now);
      Inv(after, seen + {token}) && Kept(db, after, seen) && (token != "" && user.None? ==> Dead(after, token))
  {
    hide Inv, Kept, SessionUser, Authenticate;
    StepKeeps(db, DoMe(token, now), 0, seen);
    if token != "" && SessionUser(db, token, now).1.None? {
      ReadersAgree(db, token, now);
      RefusalKills(db, seen, token, now);
    }
  }

  lemma GuardKeeps(db: Db, token: string, now: Utc, seen: set<string>)
    requires Inv(db, seen) && IsoClock.Valid(now)
    ensures var (after, user) := DependencyUser(db, token, now);
      Inv(after, seen + {token}) && Kept(db, after, seen) && (token != "" && user.None? ==> Dead(after, token))
  {
    hide Inv, Kept, DependencyUser, Authenticate, Dead;
    StepKeeps(db, DoGuard(token, now), 0, seen);
    assert RequireAdmin(db, token, now).0 == DependencyUser(db, token, now).0;
    if token != "" && DependencyUser(db, token, now).1.None? {
      ReadersAgree(db, token, now);
      RefusalKills(db, seen, token, now);
    }
  }

  lemma PasswordKeeps(db: Db, token: string, current: string, next: string, now: Utc, seen: set<string>)
    requires Inv(db, seen) && IsoClock.Valid(now)
    ensures var after := ChangePassword(db, token, current, next, now).0;
      Inv(after, seen + {token}) && Kept(db, after, seen)
  {
    hide Inv, Kept, ChangePassword;
    StepKeeps(db, DoChangePassword(token, current, next, now), 0, seen);
  }
}
