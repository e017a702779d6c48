/** The sign-in throttle: a log of recent failures per (address, user name) pair, pruned on every
    check and, when the table is large, on every failure. */
module Throttle {
  import opened Text

  type Pair = (string, string)

  const LIMIT := 10
  const WINDOW := 300.0
  const MAX_PAIRS := 10_000

  /** The failures inside the window that ends at `now`. */
  function Recent(times: seq<real>, now: real): seq<real> {
    if times == [] then []
    else (if times[0] > now - WINDOW then [times[0]] else []) + Recent(times[1..], now)
  }

  /** Seconds to wait, given a list of failures; 0 means try now. */
  function WaitOf(times: seq<real>, now: real): int {
    var recent := Recent(times, now);
    if |recent| < LIMIT then 0
    else
      var seconds := (recent[0] + WINDOW - now).Floor + 1;
      if seconds < 1 then 1 else seconds
  }

  function TimesOf(m: map<Pair, seq<real>>, k: Pair): seq<real> {
    if k in m then m[k] else []
  }

  // ---- sorted logs --------------------------------------------------------------

  ghost predicate Ordered(times: seq<real>, clock: real) {
    && (forall i, j :: 0 <= i < j < |times| ==> times[i] <= times[j])
    && (forall i :: 0 <= i < |times| ==> times[i] <= clock)
  }

  /** In an ordered log the recent failures are the last ones. */
  lemma RecentIsSuffix(times: seq<real>, clock: real, now: real) returns (n: nat)
    requires Ordered(times, clock)
    ensures n <= |times| && Recent(times, now) == times[n..]
    ensures forall i :: 0 <= i < n ==> times[i] <= now - WINDOW
    ensures forall i :: n <= i < |times| ==> times[i] > now - WINDOW
  {
    n := 0;
    while n < |times| && times[n] <= now - WINDOW
      invariant n <= |times| && forall i :: 0 <= i < n ==> times[i] <= now - WINDOW
    {
      n := n + 1;
    }
    RecentDropsOld(times, now, n);
  }

  lemma {:induction false} RecentDropsOld(times: seq<real>, now: real, n: nat)
    requires n <= |times| && forall i :: 0 <= i < n ==> times[i] <= now - WINDOW
    requires forall i :: n <= i < |times| ==> times[i] > now - WINDOW
    ensures Recent(times, now) == times[n..]
  {
    if n == 0 {
      AllRecent(times, now);
    } else {
      RecentDropsOld(times[1..], now, n - 1);
    }
  }

  lemma {:induction false} AllRecent(times: seq<real>, now: real)
    requires forall i :: 0 <= i < |times| ==> times[i] > now - WINDOW
    ensures Recent(times, now) == times
  {
    if times != [] { AllRecent(times[1..], now); }
  }

  // ---- the pruned table and the full log -------------------------------------------

  /** `pruned` is `full` without some leading failures that have left the window for good. */
  ghost predicate Agrees(pruned: seq<real>, full: seq<real>, clock: real) {
    && Ordered(full, clock)
    && |pruned| <= |full| && pruned == full[|full| - |pruned|..]
    && forall i :: 0 <= i < |full| - |pruned| ==> full[i] <= clock - WINDOW
  }

  ghost predicate Coupled(table: map<Pair, seq<real>>, log: map<Pair, seq<real>>, clock: real) {
    forall k :: Agrees(TimesOf(table, k), TimesOf(log, k), clock)
  }

  lemma {:induction false} SameRecent(pruned: seq<real>, full: seq<real>, clock: real, now: real)
    requires Agrees(pruned, full, clock) && clock <= now
    ensures Recent(pruned, now) == Recent(full, now)
  {
    if |pruned| < |full| {
      assert Recent(full, now) == Recent(full[1..], now);
      SameRecent(pruned, full[1..], clock, now);
    } else {
      assert pruned == full;
    }
  }

  lemma AgreesLater(pruned: seq<real>, full: seq<real>, clock: real, now: real)
    requires Agrees(pruned, full, clock) && clock <= now
    ensures Agrees(pruned, full, now)
  {}

  lemma AgreesPruned(pruned: seq<real>, full: seq<real>, clock: real, now: real)
    requires Agrees(pruned, full, clock) && clock <= now
    ensures Agrees(Recent(pruned, now), full, now)
  {
    SameRecent(pruned, full, clock, now);
    var n := RecentIsSuffix(full, clock, now);
  }

  lemma AgreesGrown(pruned: seq<real>, full: seq<real>, clock: real, at: real)
    requires Agrees(pruned, full, clock) && clock <= at
    ensures Agrees(pruned + [at], full + [at], at)
  {
    var d := |full| - |pruned|;
    assert (full + [at])[d..] == full[d..] + [at];
  }

  // ---- the three operations on the table ----------------------------------------------

  /** `_login_wait_seconds`: what it leaves in the table. */
  function AfterCheck(table: map<Pair, seq<real>>, k: Pair, now: real): map<Pair, seq<real>> {
    var recent := Recent(TimesOf(table, k), now);
    if recent != [] then table[k := recent] else table - {k}
  }

  predicate Stale(times: seq<real>, cutoff: real) {
    times == [] || times[|times| - 1] <= cutoff
  }

  function Swept(table: map<Pair, seq<real>>, sweptAt: real): map<Pair, seq<real>> {
    if |table| >= MAX_PAIRS
    then map k | k in table && !Stale(table[k], sweptAt - WINDOW) :: table[k]
    else table
  }

  /** `_record_login_failure`: the clock is read once for the sweep and once for the failure. */
  function AfterFailure(table: map<Pair, seq<real>>, k: Pair, sweptAt: real, at: real): map<Pair, seq<real>> {
    var swept := Swept(table, sweptAt);
    swept[k := TimesOf(swept, k) + [at]]
  }

  lemma CheckKeepsCoupling(table: map<Pair, seq<real>>, log: map<Pair, seq<real>>, clock: real, k: Pair, now: real)
    requires Coupled(table, log, clock) && clock <= now
    ensures WaitOf(TimesOf(table, k), now) == WaitOf(TimesOf(log, k), now)
    ensures Coupled(AfterCheck(table, k, now), log, now)
  {
    hide Agrees, Recent;
    assert Agrees(TimesOf(table, k), TimesOf(log, k), clock);
    SameRecent(TimesOf(table, k), TimesOf(log, k), clock, now);
    AgreesPruned(TimesOf(table, k), TimesOf(log, k), clock, now);
    var next := AfterCheck(table, k, now);
    forall p ensures Agrees(TimesOf(next, p), TimesOf(log, p), now) {
      assert Agrees(TimesOf(table, p), TimesOf(log, p), clock);
      AgreesLater(TimesOf(table, p), TimesOf(log, p), clock, now);
    }
  }

  lemma SweepKeepsCoupling(table: map<Pair, seq<real>>, log: map<Pair, seq<real>>, clock: real, sweptAt: real)
    requires Coupled(table, log, clock) && clock <= sweptAt
    ensures Coupled(Swept(table, sweptAt), log, sweptAt)
  {
    forall p ensures Agrees(TimesOf(Swept(table, sweptAt), p), TimesOf(log, p), sweptAt) {
      assert Agrees(TimesOf(table, p), TimesOf(log, p), clock);
      if p in table && p !in Swept(table, sweptAt) && table[p] != [] {
        assert table[p][|table[p]| - 1] == TimesOf(log, p)[|TimesOf(log, p)| - 1];
      }
    }
  }

  lemma CoupledHere(table: map<Pair, seq<real>>, log: map<Pair, seq<real>>, clock: real, k: Pair)
    requires Coupled(table, log, clock)
    ensures Agrees(TimesOf(table, k), TimesOf(log, k), clock)
  {}

  lemma CoupledAtOne(table: map<Pair, seq<real>>, log: map<Pair, seq<real>>, clock: real, k: Pair, pruned: seq<real>,
                     full: seq<real>)
    requires Agrees(pruned, full, clock)
    requires forall p :: p != k ==> Agrees(TimesOf(table, p), TimesOf(log, p), clock)
    ensures Coupled(table[k := pruned], log[k := full], clock)
  {
    hide Agrees;
    var table', log' := table[k := pruned], log[k := full];
    forall p ensures Agrees(TimesOf(table', p), TimesOf(log', p), clock) {
      if p != k { assert TimesOf(table', p) == TimesOf(table, p); }
    }
  }

  lemma FailureKeepsCoupling(table: map<Pair, seq<real>>, log: map<Pair, seq<real>>, clock: real, k: Pair,
                             sweptAt: real, at: real)
    requires Coupled(table, log, clock) && clock <= sweptAt <= at
    ensures Coupled(AfterFailure(table, k, sweptAt, at), log[k := TimesOf(log, k) + [at]], at)
  {
    hide Agrees, Swept;
    SweepKeepsCoupling(table, log, clock, sweptAt);
    var swept := Swept(table, sweptAt);
    CoupledHere(swept, log, sweptAt, k);
    AgreesGrown(TimesOf(swept, k), TimesOf(log, k), sweptAt, at);
    forall p | p != k ensures Agrees(TimesOf(swept, p), TimesOf(log, p), at) {
      CoupledHere(swept, log, sweptAt, p);
      AgreesLater(TimesOf(swept, p), TimesOf(log, p), sweptAt, at);
    }
    CoupledAtOne(swept, log, at, k, TimesOf(swept, k) + [at], TimesOf(log, k) + [at]);
  }

  // ---- any interleaving -----------------------------------------------------------------

  datatype Event = Check(pair: Pair, now: real) | Failure(pair: Pair, sweptAt: real, at: real) | Success(pair: Pair)

  /** The clock readings of the events never go back. */
  ghost predicate ClockRuns(events: seq<Event>, clock: real) {
    events == [] ||
    match events[0]
    case Check(_, now) => clock <= now && ClockRuns(events[1..], now)
    case Failure(_, sweptAt, at) => clock <= sweptAt <= at && ClockRuns(events[1..], at)
    case Success(_) => ClockRuns(events[1..], clock)
  }

  /** The waits answered by the table as it is pruned along the way. */
  function PrunedAnswers(events: seq<Event>, table: map<Pair, seq<real>>): seq<int> {
    if events == [] then []
    else
      match events[0]
      case Check(k, now) => [WaitOf(TimesOf(table, k), now)] + PrunedAnswers(events[1..], AfterCheck(table, k, now))
      case Failure(k, sweptAt, at) => PrunedAnswers(events[1..], AfterFailure(table, k, sweptAt, at))
      case Success(k) => PrunedAnswers(events[1..], table - {k})
  }

  /** The waits answered by a log that forgets a pair only on success. */
  function FullAnswers(events: seq<Event>, log: map<Pair, seq<real>>): seq<int> {
    if events == [] then []
    else
      match events[0]
      case Check(k, now) => [WaitOf(TimesOf(log, k), now)] + FullAnswers(events[1..], log)
      case Failure(k, _, at) => FullAnswers(events[1..], log[k := TimesOf(log, k) + [at]])
      case Success(k) => FullAnswers(events[1..], log - {k})
  }

  /** The pruned table answers like the full log in every interleaving over all pairs. */
  lemma {:induction false} PruningNeverShows(events: seq<Event>, table: map<Pair, seq<real>>, log: map<Pair, seq<real>>,
                                             clock: real)
    requires Coupled(table, log, clock) && ClockRuns(events, clock)
    ensures PrunedAnswers(events, table) == FullAnswers(events, log)
  {
    hide Agrees, WaitOf, AfterCheck, AfterFailure;
    if events != [] {
      match events[0]
      case Check(k, now) =>
        CheckKeepsCoupling(table, log, clock, k, now);
        PruningNeverShows(events[1..], AfterCheck(table, k, now), log, now);
      case Failure(k, sweptAt, at) =>
        FailureKeepsCoupling(table, log, clock, k, sweptAt, at);
        PruningNeverShows(events[1..], AfterFailure(table, k, sweptAt, at), log[k := TimesOf(log, k) + [at]], at);
      case Success(k) =>
        SuccessKeepsCoupling(table, log, clock, k);
        PruningNeverShows(events[1..], table - {k}, log - {k}, clock);
    }
  }

  lemma SuccessKeepsCoupling(table: map<Pair, seq<real>>, log: map<Pair, seq<real>>, clock: real, k: Pair)
    requires Coupled(table, log, clock)
    ensures Coupled(table - {k}, log - {k}, clock)
  {
    forall p ensures Agrees(TimesOf(table - {k}, p), TimesOf(log - {k}, p), clock) {
      assert Agrees(TimesOf(table, p), TimesOf(log, p), clock);
    }
  }

  // ---- how large the table gets ---------------------------------------------------------------

  ghost function PairsInWindow(log: map<Pair, seq<real>>, now: real): set<Pair> {
    set k | k in log && exists i :: 0 <= i < |log[k]| && log[k][i] > now - WINDOW
  }

  /** A pair that survives the sweep has its last failure inside the window. */
  lemma KeptPairIsRecent(table: map<Pair, seq<real>>, log: map<Pair, seq<real>>, clock: real, k: Pair, sweptAt: real,
                         at: real, p: Pair)
    requires Agrees(TimesOf(table, p), TimesOf(log, p), clock) && sweptAt <= at
    requires p == k || (p in table && !Stale(table[p], sweptAt - WINDOW))
    ensures p in PairsInWindow(log[k := TimesOf(log, k) + [at]], sweptAt)
  {
    var times := if p == k then TimesOf(log, k) + [at] else log[p];
    if p == k {
      assert times[|times| - 1] == at;
    } else {
      assert times[|times| - 1] == table[p][|table[p]| - 1];
    }
  }

  /** Right after a failure the table holds at most 10000 pairs, or at most the pairs with a
      failure inside the window if those are more. */
  lemma TableStaysSmall(table: map<Pair, seq<real>>, log: map<Pair, seq<real>>, clock: real, k: Pair, sweptAt: real,
                        at: real)
    requires Coupled(table, log, clock) && clock <= sweptAt <= at
    ensures var next := AfterFailure(table, k, sweptAt, at);
      |next| <= MAX_PAIRS || |next| <= |PairsInWindow(log[k := TimesOf(log, k) + [at]], sweptAt)|
  {
    hide Agrees, PairsInWindow, Stale;
    var next := AfterFailure(table, k, sweptAt, at);
    var log' := log[k := TimesOf(log, k) + [at]];
    if |table| >= MAX_PAIRS {
      forall p | p in next ensures p in PairsInWindow(log', sweptAt) {
        KeptPairIsRecent(table, log, clock, k, sweptAt, at, p);
      }
      SubsetSize(next.Keys, PairsInWindow(log', sweptAt));
      assert |next| == |next.Keys|;
    } else {
      assert next.Keys == table.Keys + {k};
      assert |next| == |next.Keys| && |table| == |table.Keys|;
    }
  }

  // ---- the bound on failures and the advertised wait ---------------------------------------------

  /** One pair since its last success: its failures, the requests between check and outcome, and
      the latest clock reading. */
  datatype State = State(log: seq<real>, inFlight: nat, clock: real)

  datatype Step = Admit(now: real) | Refuse(now: real) | Fail(at: real) | Succeed(at: real)

  /** Each function is atomic; at most `k` requests are in flight. */
  predicate Enabled(s: State, e: Step, k: nat) {
    match e
    case Admit(now) => s.clock <= now && s.inFlight < k && WaitOf(s.log, now) == 0
    case Refuse(now) => s.clock <= now && WaitOf(s.log, now) > 0
    case Fail(at) => s.clock <= at && s.inFlight > 0
    case Succeed(at) => s.clock <= at && s.inFlight > 0
  }

  function Next(s: State, e: Step): State
    requires e.Fail? || e.Succeed? ==> s.inFlight > 0
  {
    match e
    case Admit(now) => State(s.log, s.inFlight + 1, now)
    case Refuse(now) => State(s.log, s.inFlight, now)
    case Fail(at) => State(s.log + [at], s.inFlight - 1, at)
    case Succeed(at) => State([], s.inFlight - 1, at)
  }

  ghost predicate Run(states: seq<State>, steps: seq<Step>, k: nat) {
    && |states| == |steps| + 1
    && states[0].log == [] && states[0].inFlight == 0
    && forall i :: 0 <= i < |steps| ==> Enabled(states[i], steps[i], k) && states[i + 1] == Next(states[i], steps[i])
  }

  /** Failures less than 300 seconds apart number at most `9 + k`. */
  ghost predicate Sparse(log: seq<real>, k: nat) {
    forall i, j :: 0 <= i <= j < |log| && log[j] - log[i] < 300.0 ==> j - i + 1 <= 9 + k
  }

  ghost predicate Bounded(s: State, k: nat) {
    && Ordered(s.log, s.clock)
    && (s.inFlight > 0 ==> |Recent(s.log, s.clock)| + s.inFlight <= LIMIT - 1 + k)
    && |Recent(s.log, s.clock)| <= LIMIT - 1 + k
    && Sparse(s.log, k)
  }

  lemma RecentShrinks(times: seq<real>, clock: real, now: real)
    requires Ordered(times, clock) && clock <= now
    ensures |Recent(times, now)| <= |Recent(times, clock)|
  {
    var n := RecentIsSuffix(times, clock, clock);
    var m := RecentIsSuffix(times, clock, now);
  }

  lemma StepKeepsBound(s: State, e: Step, k: nat)
    requires k >= 1 && Bounded(s, k) && Enabled(s, e, k)
    ensures Bounded(Next(s, e), k)
  {
    var now := match e case Admit(t) => t case Refuse(t) => t case Fail(t) => t case Succeed(t) => t;
    RecentShrinks(s.log, s.clock, now);
    if e.Fail? {
      RecentSnoc(s.log, now, now);
      FailureKeepsSparse(s.log, s.clock, now, k);
    }
  }

  lemma FailureKeepsSparse(log: seq<real>, clock: real, at: real, k: nat)
    requires Ordered(log, clock) && clock <= at && Sparse(log, k) && |Recent(log, at)| < LIMIT - 1 + k
    ensures Sparse(log + [at], k)
  {
    var n := RecentIsSuffix(log, clock, at);
    var next := log + [at];
    forall i, j | 0 <= i <= j < |next| && next[j] - next[i] < 300.0 ensures j - i + 1 <= 9 + k {
      if j < |log| {
        assert log[j] - log[i] < 300.0;
      } else if i < |log| {
        assert i >= n;
      }
    }
  }

  /** In every run with at most `k` requests of a pair in flight, any failures since the last
      success that lie less than 300 seconds apart number at most `9 + k`: ten when requests
      come one after the other. */
  lemma {:induction false} FailuresAreBounded(states: seq<State>, steps: seq<Step>, k: nat, n: nat)
    requires k >= 1 && Run(states, steps, k) && n < |states|
    ensures Bounded(states[n], k)
  {
    if n > 0 {
      FailuresAreBounded(states, steps, k, n - 1);
      StepKeepsBound(states[n - 1], steps[n - 1], k);
    }
  }

  /** The throttle admits exactly when the tenth failure from the end has left the window. */
  lemma AdmittedIff(times: seq<real>, clock: real, now: real)
    requires Ordered(times, clock)
    ensures WaitOf(times, now) == 0 <==> |times| < 10 || times[|times| - 10] <= now - 300.0
  {
    var n := RecentIsSuffix(times, clock, now);
  }

  /** A wait is between 1 and 301 seconds. */
  lemma WaitIsShort(times: seq<real>, clock: real, now: real)
    requires Ordered(times, clock) && clock <= now
    ensures 0 <= WaitOf(times, now) <= 301
  {
    var n := RecentIsSuffix(times, clock, now);
  }

  lemma WaitDue(times: seq<real>, clock: real, now: real)
    requires Ordered(times, clock) && clock <= now && WaitOf(times, now) > 0
    ensures |Recent(times, now)| >= LIMIT
    ensures WaitOf(times, now) == (Recent(times, now)[0] + WINDOW - now).Floor + 1
  {
    var n := RecentIsSuffix(times, clock, now);
  }

  /** When a wait is due, every attempt at or after it is admitted if and only if the tenth failure
      from the end leaves the window no later than the wait, which is counted from the first recent
      failure. With exactly ten recent failures these two are the same. */
  lemma WaitIsEnoughIff(times: seq<real>, clock: real, now: real)
    requires Ordered(times, clock) && clock <= now && WaitOf(times, now) > 0
    ensures |times| >= LIMIT && |Recent(times, now)| >= LIMIT
    ensures (forall later: real :: later >= now + WaitOf(times, now) as real ==> WaitOf(times, later) == 0)
      <==> times[|times| - LIMIT] + WINDOW - now <= ((Recent(times, now)[0] + WINDOW - now).Floor + 1) as real
    ensures |Recent(times, now)| == LIMIT ==> times[|times| - LIMIT] == Recent(times, now)[0]
  {
    hide Recent, WaitOf;
    var n := RecentIsSuffix(times, clock, now);
    WaitDue(times, clock, now);
    AdmittedIff(times, clock, now + WaitOf(times, now) as real);
    forall later: real | later >= now + WaitOf(times, now) as real
      ensures WaitOf(times, later) == 0 <==> times[|times| - LIMIT] <= later - WINDOW
    {
      AdmittedIff(times, clock, later);
    }
  }

  /** One request at a time never has more than ten recent failures, so its wait is always enough. */
  lemma SequentialWaitIsEnough(states: seq<State>, steps: seq<Step>, n: nat, now: real, later: real)
    requires Run(states, steps, 1) && n < |states| && states[n].clock <= now
    requires WaitOf(states[n].log, now) > 0 && later >= now + WaitOf(states[n].log, now) as real
    ensures WaitOf(states[n].log, later) == 0
  {
    FailuresAreBounded(states, steps, 1, n);
    RecentShrinks(states[n].log, states[n].clock, now);
    WaitIsEnoughIff(states[n].log, states[n].clock, now);
  }

  // ---- a run that attains the bound ---------------------------------------------------------------

  /** One failure at 0 and `n` at 100. */
  function Burst(n: nat): seq<real> {
    [0.0] + seq(n, i => 100.0)
  }

  lemma RunSnoc(states: seq<State>, steps: seq<Step>, e: Step, k: nat)
    requires Run(states, steps, k) && Enabled(states[|steps|], e, k)
    ensures Run(states + [Next(states[|steps|], e)], steps + [e], k)
  {
    var states', steps' := states + [Next(states[|steps|], e)], steps + [e];
    forall i | 0 <= i < |steps'|
      ensures Enabled(states'[i], steps'[i], k) && states'[i + 1] == Next(states'[i], steps'[i])
    {
      if i < |steps| { assert states'[i] == states[i] && states'[i + 1] == states[i + 1] && steps'[i] == steps[i]; }
    }
  }

  lemma {:induction false} FewAdmitted(times: seq<real>, now: real)
    ensures |Recent(times, now)| <= |times|
    ensures |times| < LIMIT ==> WaitOf(times, now) == 0
  {
    if times != [] { FewAdmitted(times[1..], now); }
  }

  /** Nine failures, one request after the other. */
  lemma {:induction false} NineFailures(n: nat, k: nat) returns (states: seq<State>, steps: seq<Step>)
    requires n <= 8 && k >= 1
    ensures Run(states, steps, k)
    ensures states[|steps|] == State(Burst(n), 0, if n == 0 then 0.0 else 100.0)
  {
    var at := if n == 0 then 0.0 else 100.0;
    if n == 0 {
      states, steps := [State([], 0, 0.0)], [];
    } else {
      states, steps := NineFailures(n - 1, k);
      FewAdmitted(Burst(n - 1), at);
    }
    RunSnoc(states, steps, Admit(at), k);
    states, steps := states + [Next(states[|steps|], Admit(at))], steps + [Admit(at)];
    RunSnoc(states, steps, Fail(at), k);
    states, steps := states + [Next(states[|steps|], Fail(at))], steps + [Fail(at)];
    assert n > 0 ==> Burst(n) == Burst(n - 1) + [100.0];
  }

  /** Then `m` requests let in together. */
  lemma {:induction false} LetIn(m: nat, k: nat) returns (states: seq<State>, steps: seq<Step>)
    requires 1 <= k && m <= k
    ensures Run(states, steps, k) && states[|steps|] == State(Burst(8), m, 100.0)
  {
    if m == 0 {
      states, steps := NineFailures(8, k);
    } else {
      states, steps := LetIn(m - 1, k);
      FewAdmitted(Burst(8), 100.0);
      RunSnoc(states, steps, Admit(100.0), k);
      states, steps := states + [Next(states[|steps|], Admit(100.0))], steps + [Admit(100.0)];
    }
  }

  /** Then all of them failing. */
  lemma {:induction false} AllFail(m: nat, k: nat) returns (states: seq<State>, steps: seq<Step>)
    requires 1 <= k && m <= k
    ensures Run(states, steps, k) && states[|steps|] == State(Burst(8 + m), k - m, 100.0)
  {
    if m == 0 {
      states, steps := LetIn(k, k);
    } else {
      states, steps := AllFail(m - 1, k);
      RunSnoc(states, steps, Fail(100.0), k);
      states, steps := states + [Next(states[|steps|], Fail(100.0))], steps + [Fail(100.0)];
      assert Burst(8 + m) == Burst(7 + m) + [100.0];
    }
  }

  lemma BurstIsRecent(n: nat, now: real)
    requires 100.0 <= now < 400.0
    ensures Ordered(Burst(n), 100.0)
    ensures now < 300.0 ==> Recent(Burst(n), now) == Burst(n)
    ensures now >= 300.0 ==> |Recent(Burst(n), now)| == n
  {
    if now < 300.0 {
      AllRecent(Burst(n), now);
    } else {
      RecentDropsOld(Burst(n), now, 1);
    }
  }

  /** For every `k` some run with `k` requests in flight reaches `9 + k` failures inside the window. */
  lemma BoundIsAttained(k: nat) returns (states: seq<State>, steps: seq<Step>)
    requires k >= 1
    ensures Run(states, steps, k)
    ensures |states[|steps|].log| == |Recent(states[|steps|].log, 100.0)| == 9 + k
  {
    states, steps := AllFail(k, k);
    BurstIsRecent(8 + k, 100.0);
  }

  /** As soon as two requests can be in flight a run leads to a wait that is too short: told to
      wait 201 seconds at 100, a client that does so is refused at 301. */
  lemma WaitCanBeTooShort(k: nat) returns (states: seq<State>, steps: seq<Step>)
    requires k >= 2
    ensures Run(states, steps, k) && states[|steps|].clock == 100.0
    ensures WaitOf(states[|steps|].log, 100.0) == 201 && WaitOf(states[|steps|].log, 301.0) > 0
  {
    states, steps := AllFail(k, k);
    BurstIsRecent(8 + k, 100.0);
    BurstIsRecent(8 + k, 301.0);
    assert (0.0 + WINDOW - 100.0).Floor == 200;
  }

  /** The comprehension that keeps the failures inside the window. */
  method InWindow(times: seq<real>, now: real) returns (recent: seq<real>)
    ensures recent == Recent(times, now)
  {
    recent := [];
    for n := 0 to |times|
      invariant recent == Recent(times[..n], now)
    {
      RecentSnoc(times[..n], times[n], now);
      assert times[..n + 1] == times[..n] + [times[n]];
      if times[n] > now - WINDOW { recent := recent + [times[n]]; }
    }
    assert times[..|times|] == times;
  }

  // ---- the module's dictionary, updated in place ------------------------------------------------------

  class FailedLogins {
    var table: map<Pair, seq<real>>
    ghost var log: map<Pair, seq<real>>  // every failure of a pair since its last success
    ghost var clock: real                // the latest clock reading

    ghost predicate Valid()
      reads this
    {
      Coupled(table, log, clock)
    }

    constructor ()
      ensures Valid() && table == map[] && log == map[]
    {
      table, log, clock := map[], map[], 0.0;
    }

    /** `_login_wait_seconds`. */
    method WaitSeconds(k: Pair, now: real) returns (wait: int)
      requires Valid() && clock <= now
      modifies this
      ensures Valid() && clock == now && log == old(log)
      ensures wait == WaitOf(TimesOf(log, k), now)
      ensures table == AfterCheck(old(table), k, now)
    {
      hide Recent, Agrees, Coupled;
      CheckKeepsCoupling(table, log, clock, k, now);
      var recent := InWindow(if k in table then table[k] else [], now);
      if recent != [] { table := table[k := recent]; } else { table := table - {k}; }
      clock := now;
      if |recent| < LIMIT { return 0; }
      var seconds := (recent[0] + WINDOW - now).Floor + 1;
      wait := if seconds < 1 then 1 else seconds;
    }

    /** `_record_login_failure`. */
    method RecordFailure(k: Pair, sweptAt: real, at: real)
      requires Valid() && clock <= sweptAt <= at
      modifies this
      ensures Valid() && clock == at
      ensures log == old(log)[k := old(TimesOf(log, k)) + [at]]
      ensures table == AfterFailure(old(table), k, sweptAt, at)
      ensures |table| <= 10_000 || |table| <= |PairsInWindow(log, sweptAt)|
    {
      hide Agrees, Coupled, PairsInWindow;
      FailureKeepsCoupling(table, log, clock, k, sweptAt, at);
      TableStaysSmall(table, log, clock, k, sweptAt, at);
      if |table| >= MAX_PAIRS {
        var cutoff := sweptAt - WINDOW;
        var stale := set p | p in table && Stale(table[p], cutoff);
        table := table - stale;
      }
      assert table == Swept(old(table), sweptAt);
      table := table[k := TimesOf(table, k) + [at]];
      log := log[k := TimesOf(log, k) + [at]];
      clock := at;
    }

    /** A successful sign-in forgets the pair. */
    method Forget(k: Pair)
      requires Valid()
      modifies this
      ensures Valid() && clock == old(clock)
      ensures log == old(log) - {k} && table == old(table) - {k}
    {
      hide Agrees, Coupled;
      SuccessKeepsCoupling(table, log, clock, k);
      table, log := table - {k}, log - {k};
    }
  }

  lemma {:induction false} RecentSnoc(times: seq<real>, t: real, now: real)
    ensures Recent(times + [t], now) == Recent(times, now) + if t > now - WINDOW then [t] else []
  {
    if times == [] {
      assert [] + [t] == [t];
    } else {
      assert (times + [t])[1..] == times[1..] + [t];
      RecentSnoc(times[1..], t, now);
    }
  }
}
