/** First-administrator setup under concurrency. Requests are processes whose steps interleave in
    any order with each other and with the administration routes; the advisory lock is held from
    its acquisition to the end of the transaction. */
module Setup {
  import opened Text
  import opened Accounts
  import IsoClock

  datatype Phase = Waiting | Locked | Counted(existing: nat) | Inserted(user: User) | Committed(id: nat) | Finished

  datatype State = State(db: Db, holder: Option<nat>, phases: map<nat, Phase>, wins: nat)

  datatype Step =
    | TakeLock(p: nat)
    | CountUsers(p: nat)
    | Reject(p: nat, username: string, password: string)
    | Insert(p: nat, username: string, password: string)
    | Commit(p: nat)
    | RollBack(p: nat)
    | IssueSession(p: nat, token: string, expires: IsoClock.Utc)
    | Administer(actor: nat, cmd: Cmd)

  function PhaseOf(s: State, p: nat): Phase {
    if p in s.phases then s.phases[p] else Waiting
  }

  predicate Acceptable(username: string, password: string) {
    |password| >= MIN_PASSWORD && Trim(username) != ""
  }

  /** The administration routes that change accounts, run for a signed-in administrator. */
  predicate Administrative(s: State, actor: nat, c: Cmd) {
    && actor < |s.db.users| && s.db.users[actor].isAdmin && s.db.users[actor].isActive
    && (c.DoCreate? || c.DoUpdate? || (c.DoDisable? && c.adminId == actor) || c.DoEnable?)
  }

  predicate Enabled(s: State, e: Step) {
    match e
    case TakeLock(p) => PhaseOf(s, p).Waiting? && s.holder.None?
    case CountUsers(p) => PhaseOf(s, p).Locked?
    case Reject(p, name, password) => PhaseOf(s, p).Counted?
      && (PhaseOf(s, p).existing > 0 || !Acceptable(name, password))
    case Insert(p, name, password) => PhaseOf(s, p).Counted? && PhaseOf(s, p).existing == 0
      && Acceptable(name, password)
    case Commit(p) => PhaseOf(s, p).Inserted?
    case RollBack(p) => InTransaction(PhaseOf(s, p))
    case IssueSession(p, token, _) => PhaseOf(s, p).Committed? && token !in s.db.sessions
    case Administer(actor, c) => Administrative(s, actor, c)
  }

  function Next(s: State, e: Step): State
    requires Enabled(s, e)
  {
    match e
    case TakeLock(p) => s.(holder := Some(p), phases := s.phases[p := Locked])
    case CountUsers(p) => s.(phases := s.phases[p := Counted(|s.db.users|)])
    case Reject(p, _, _) => s.(holder := None, phases := s.phases[p := Finished])
    case Insert(p, name, password) => s.(phases := s.phases[p := Inserted(User(Trim(name), password, true, true, ""))])
    case Commit(p) =>
      var id := |s.db.users|;
      State(s.db.(users := s.db.users + [PhaseOf(s, p).user]), None, s.phases[p := Committed(id)], s.wins + 1)
    case RollBack(p) => s.(holder := None, phases := s.phases[p := Finished])
    case IssueSession(p, token, expires) =>
      var session := Session(PhaseOf(s, p).id, IsoClock.Iso(expires), None);
      s.(db := s.db.(sessions := s.db.sessions[token := session]), phases := s.phases[p := Finished])
    case Administer(_, c) => s.(db := Apply(s.db, c))
  }

  ghost predicate Run(states: seq<State>, steps: seq<Step>) {
    && |states| == |steps| + 1
    && states[0] == State(Db([], map[]), None, map[], 0)
    && forall i :: 0 <= i < |steps| ==> Enabled(states[i], steps[i]) && states[i + 1] == Next(states[i], steps[i])
  }

  predicate InTransaction(ph: Phase) {
    ph.Locked? || ph.Counted? || ph.Inserted?
  }

  ghost predicate Inv(s: State) {
    && (forall p :: p in s.phases && InTransaction(s.phases[p]) ==> s.holder == Some(p))
    && (forall p :: p in s.phases && s.phases[p].Counted? && s.phases[p].existing == 0 ==> s.db.users == [])
    && (forall p :: p in s.phases && s.phases[p].Inserted? ==>
          s.db.users == [] && s.phases[p].user.isAdmin && s.phases[p].user.isActive)
    && (forall p :: p in s.phases && s.phases[p].Committed? ==> s.wins == 1)
    && (if s.wins == 0 then s.db == Db([], map[]) else s.wins == 1 && HasActiveAdmin(s.db.users))
  }

  lemma StepKeepsInv(s: State, e: Step)
    requires Inv(s) && Enabled(s, e)
    ensures Inv(Next(s, e))
  {
    hide Apply, Trim, HasActiveAdmin;
    match e
    case Administer(actor, c) => AdministerKeepsInv(s, actor, c);
    case Commit(p) =>
      FirstIsAdmin(PhaseOf(s, p).user);
      assert s.db.users + [PhaseOf(s, p).user] == [PhaseOf(s, p).user];
    case _ =>
  }

  lemma AdministerKeepsInv(s: State, actor: nat, c: Cmd)
    requires Inv(s) && Administrative(s, actor, c)
    ensures Inv(s.(db := Apply(s.db, c)))
  {
    hide Apply, HasActiveAdmin;
    assert s.wins == 1;
    AdminRemains(s.db, c);
  }

  lemma FirstIsAdmin(user: User)
    requires user.isAdmin && user.isActive
    ensures HasActiveAdmin([user]) && !HasActiveAdmin([])
  {
    assert [user][0].isAdmin && [user][0].isActive;
  }

  /** Setup succeeds at most once in every interleaving; from then on there is always an active
      administrator; and at most one request is ever inside its transaction. */
  lemma {:induction false} SetupSucceedsOnce(states: seq<State>, steps: seq<Step>, n: nat)
    requires Run(states, steps) && n < |states|
    ensures states[n].wins <= 1
    ensures states[n].wins == 1 ==> HasActiveAdmin(states[n].db.users)
    ensures forall p, q :: InTransaction(PhaseOf(states[n], p)) && InTransaction(PhaseOf(states[n], q)) ==> p == q
    ensures Inv(states[n])
  {
    if n > 0 {
      SetupSucceedsOnce(states, steps, n - 1);
      StepKeepsInv(states[n - 1], steps[n - 1]);
    }
  }

  /** A request that finds the lock free and no users, and whose input is acceptable, does succeed. */
  lemma SetupCanSucceed(s: State, p: nat, username: string, password: string)
    requires Inv(s) && s.wins == 0 && PhaseOf(s, p).Waiting? && s.holder.None? && Acceptable(username, password)
    ensures Enabled(s, TakeLock(p))
    ensures var s1 := Next(s, TakeLock(p));
      Enabled(s1, CountUsers(p)) &&
      var s2 := Next(s1, CountUsers(p));
      Enabled(s2, Insert(p, username, password)) &&
      var s3 := Next(s2, Insert(p, username, password));
      Enabled(s3, Commit(p)) && Next(s3, Commit(p)).wins == 1
  {}

  /** Taken as one step, the five steps are what `FirstAdmin` does to both tables. */
  lemma StepsAreFirstAdmin(s: State, p: nat, username: string, password: string, token: string, expires: IsoClock.Utc)
    requires Inv(s) && s.wins == 0 && PhaseOf(s, p).Waiting? && s.holder.None? && Acceptable(username, password)
    ensures var s1 := Next(s, TakeLock(p));
      var s2 := Next(s1, CountUsers(p));
      Enabled(s2, Insert(p, username, password)) &&
      var s3 := Next(s2, Insert(p, username, password));
      var s4 := Next(s3, Commit(p));
      Enabled(s4, IssueSession(p, token, expires)) &&
      Next(s4, IssueSession(p, token, expires)).db == FirstAdmin(s.db, username, password, token, expires).0
  {
    hide Trim;
  }
}
