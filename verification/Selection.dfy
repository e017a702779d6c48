/** Passes and parts of a list. Where a pass never crosses between the chosen entries and the
    others, choosing first and running the pass gives what running it and choosing gives. Stated of
    hosts, users and kinds this says that nothing leaks from one of them to another. */
module Selection {
  import opened Text
  import opened Activities
  import opened Greedy
  import opened Dedup
  import Registry

  // ---- choosing entries ----------------------------------------------------------------

  function ChosenUpTo(L: seq<Snap>, keep: Facts -> bool, n: nat): seq<Snap>
    requires n <= |L|
  {
    if n == 0 then []
    else ChosenUpTo(L, keep, n - 1) + if keep(L[n - 1].facts) then [L[n - 1]] else []
  }

  function Chosen(L: seq<Snap>, keep: Facts -> bool): seq<Snap> {
    ChosenUpTo(L, keep, |L|)
  }

  /** How many entries before `n` are chosen: the place of a chosen entry `n` among the chosen. */
  function Rank(L: seq<Snap>, keep: Facts -> bool, n: nat): nat
    requires n <= |L|
  {
    |ChosenUpTo(L, keep, n)|
  }

  lemma {:induction false} ChosenPrefix(L: seq<Snap>, keep: Facts -> bool, m: nat, n: nat)
    requires m <= n <= |L|
    ensures ChosenUpTo(L, keep, m) <= ChosenUpTo(L, keep, n)
    decreases n
  {
    if m < n { ChosenPrefix(L, keep, m, n - 1); }
  }

  lemma ChosenAt(L: seq<Snap>, keep: Facts -> bool, i: nat)
    requires i < |L| && keep(L[i].facts)
    ensures Rank(L, keep, i) < |Chosen(L, keep)| && Chosen(L, keep)[Rank(L, keep, i)] == L[i]
    ensures Rank(L, keep, i + 1) == Rank(L, keep, i) + 1
  {
    ChosenPrefix(L, keep, i + 1, |L|);
  }

  lemma RankOrder(L: seq<Snap>, keep: Facts -> bool, m: nat, n: nat)
    requires m <= |L| && n <= |L|
    ensures m <= n ==> Rank(L, keep, m) <= Rank(L, keep, n)
    ensures m < n && keep(L[m].facts) ==> Rank(L, keep, m) < Rank(L, keep, n)
  {
    if m <= n {
      ChosenPrefix(L, keep, m, n);
      if m < n && keep(L[m].facts) { ChosenPrefix(L, keep, m + 1, n); }
    }
  }

  /** Where a chosen entry comes from. */
  lemma {:induction false} ChosenFrom(L: seq<Snap>, keep: Facts -> bool, n: nat, m: nat) returns (i: nat)
    requires n <= |L| && m < Rank(L, keep, n)
    ensures i < n && keep(L[i].facts) && Rank(L, keep, i) == m
  {
    if m < Rank(L, keep, n - 1) { i := ChosenFrom(L, keep, n - 1, m); } else { i := n - 1; }
  }

  lemma {:induction false} ChosenMembers(L: seq<Snap>, keep: Facts -> bool, n: nat, s: Snap)
    requires n <= |L|
    ensures s in ChosenUpTo(L, keep, n) <==> s in L[..n] && keep(s.facts)
  {
    if n > 0 {
      ChosenMembers(L, keep, n - 1, s);
      assert L[..n] == L[..n - 1] + [L[n - 1]];
    }
  }

  // ---- the greedy passes ------------------------------------------------------------------

  /** No chosen entry is related to one that is not. */
  ghost predicate Closed(rule: Rule, L: seq<Snap>, keep: Facts -> bool) {
    forall x, y :: x in L && y in L && Related(rule, x, y) ==> (keep(x.facts) <==> keep(y.facts))
  }

  lemma {:induction false} KeepsChosen(rule: Rule, L: seq<Snap>, keep: Facts -> bool, j: nat)
    requires Closed(rule, L, keep) && j < |L| && keep(L[j].facts)
    ensures Rank(L, keep, j) < |Chosen(L, keep)|
    ensures Keeps(rule, Chosen(L, keep), Rank(L, keep, j)) <==> Keeps(rule, L, j)
    decreases j
  {
    hide Related, ChosenUpTo;
    var F := Chosen(L, keep);
    ChosenAt(L, keep, j);
    forall i: nat | i < j && keep(L[i].facts)
      ensures Rank(L, keep, i) < Rank(L, keep, j) && F[Rank(L, keep, i)] == L[i]
      ensures Keeps(rule, F, Rank(L, keep, i)) <==> Keeps(rule, L, i)
    {
      ChosenAt(L, keep, i);
      RankOrder(L, keep, i, j);
      KeepsChosen(rule, L, keep, i);
    }
    if Keeps(rule, L, j) {
      forall m: nat | m < Rank(L, keep, j) && Related(rule, F[m], F[Rank(L, keep, j)]) ensures !Keeps(rule, F, m) {
        var i := ChosenFrom(L, keep, j, m);
      }
    } else {
      var i: nat :| i < j && Related(rule, L[i], L[j]) && Keeps(rule, L, i);
      assert keep(L[i].facts);
    }
  }

  lemma AbsorbsChosen(rule: Rule, L: seq<Snap>, keep: Facts -> bool, i: nat, j: nat)
    requires Closed(rule, L, keep) && i < |L| && j < |L| && keep(L[i].facts) && keep(L[j].facts)
    ensures Rank(L, keep, i) < |Chosen(L, keep)| && Rank(L, keep, j) < |Chosen(L, keep)|
    ensures Absorbs(rule, Chosen(L, keep), Rank(L, keep, i), Rank(L, keep, j)) <==> Absorbs(rule, L, i, j)
  {
    hide Related, ChosenUpTo, Keeps;
    var F := Chosen(L, keep);
    ChosenAt(L, keep, i);
    ChosenAt(L, keep, j);
    RankOrder(L, keep, i, j);
    RankOrder(L, keep, j, i);
    KeepsChosen(rule, L, keep, i);
    forall h: nat | h < i && keep(L[h].facts)
      ensures Rank(L, keep, h) < Rank(L, keep, i) && F[Rank(L, keep, h)] == L[h]
      ensures Keeps(rule, F, Rank(L, keep, h)) <==> Keeps(rule, L, h)
    {
      ChosenAt(L, keep, h);
      RankOrder(L, keep, h, i);
      KeepsChosen(rule, L, keep, h);
    }
    if Absorbs(rule, L, i, j) {
      forall m: nat | m < Rank(L, keep, i) && Related(rule, F[m], F[Rank(L, keep, j)]) ensures !Keeps(rule, F, m) {
        var h := ChosenFrom(L, keep, i, m);
      }
    }
    if Absorbs(rule, F, Rank(L, keep, i), Rank(L, keep, j)) {
      forall h: nat | h < i && Related(rule, L[h], L[j]) ensures !Keeps(rule, L, h) {
        assert keep(L[h].facts);
      }
    }
  }

  lemma {:induction false} GrownChosen(rule: Rule, L: seq<Snap>, keep: Facts -> bool, i: nat, g: nat)
    requires Closed(rule, L, keep) && i < |L| && g <= |L| && keep(L[i].facts)
    ensures Rank(L, keep, i) < |Chosen(L, keep)| && Rank(L, keep, g) <= |Chosen(L, keep)|
    ensures Grown(rule, Chosen(L, keep), Rank(L, keep, i), Rank(L, keep, g)) == Grown(rule, L, i, g)
    decreases g
  {
    hide Related, ChosenUpTo, Absorbs, Absorb;
    var F := Chosen(L, keep);
    ChosenAt(L, keep, i);
    RankOrder(L, keep, g, |L|);
    RankSteps(L, keep, g);
    if g > 0 {
      GrownChosen(rule, L, keep, i, g - 1);
      if keep(L[g - 1].facts) {
        ChosenAt(L, keep, g - 1);
        AbsorbsChosen(rule, L, keep, i, g - 1);
      } else {
        NotAcross(rule, L, keep, i, g - 1);
      }
    }
  }

  lemma NotAcross(rule: Rule, L: seq<Snap>, keep: Facts -> bool, i: nat, j: nat)
    requires Closed(rule, L, keep) && i < |L| && j < |L| && keep(L[i].facts) != keep(L[j].facts)
    ensures !Absorbs(rule, L, i, j)
  {
    hide Related, Keeps;
  }

  lemma RankSteps(L: seq<Snap>, keep: Facts -> bool, n: nat)
    requires n <= |L|
    ensures Rank(L, keep, 0) == 0
    ensures n > 0 ==> Rank(L, keep, n) == Rank(L, keep, n - 1) + if keep(L[n - 1].facts) then 1 else 0
  {}

  /** Choosing entries that are related to no others commutes with merging. */
  lemma MergeCommutes(rule: Rule, L: seq<Snap>, keep: Facts -> bool)
    requires Closed(rule, L, keep)
    ensures Chosen(Merged(rule, L), keep) == Merged(rule, Chosen(L, keep))
  {
    MergedChosen(rule, L, keep, |L|);
  }

  lemma {:induction false} MergedChosen(rule: Rule, L: seq<Snap>, keep: Facts -> bool, n: nat)
    requires Closed(rule, L, keep) && n <= |L|
    ensures Rank(L, keep, n) <= |Chosen(L, keep)|
    ensures MergedUpTo(rule, Chosen(L, keep), Rank(L, keep, n)) == Chosen(MergedUpTo(rule, L, n), keep)
  {
    hide Related, ChosenUpTo, Keeps, Grown;
    RankOrder(L, keep, n, |L|);
    RankSteps(L, keep, n);
    if n > 0 {
      var i := n - 1;
      MergedChosen(rule, L, keep, i);
      var before := MergedUpTo(rule, L, i);
      var more := if Keeps(rule, L, i) then [Grown(rule, L, i, |L|)] else [];
      GrownFacts(rule, L, i, |L|);
      ChosenSplit(before, more, keep);
      ChosenOne(Grown(rule, L, i, |L|), keep);
      ChosenNone(keep);
      if keep(L[i].facts) {
        KeepsChosen(rule, L, keep, i);
        GrownChosen(rule, L, keep, i, |L|);
      }
    } else {
      ChosenNone(keep);
    }
  }

  lemma ChosenNone(keep: Facts -> bool)
    ensures Chosen([], keep) == []
  {}

  lemma ChosenOne(s: Snap, keep: Facts -> bool)
    ensures Chosen([s], keep) == if keep(s.facts) then [s] else []
  {
    assert ChosenUpTo([s], keep, 0) == [];
  }

  lemma {:induction false} ChosenSplit(a: seq<Snap>, b: seq<Snap>, keep: Facts -> bool)
    ensures Chosen(a + b, keep) == Chosen(a, keep) + Chosen(b, keep)
  {
    if b == [] {
      assert a + b == a;
    } else {
      var front, last := b[..|b| - 1], b[|b| - 1];
      ChosenSplit(a, front, keep);
      ChosenLast(a + front, last, keep);
      ChosenLast(front, last, keep);
      assert a + b == (a + front) + [last] && b == front + [last];
    }
  }

  lemma ChosenLast(a: seq<Snap>, x: Snap, keep: Facts -> bool)
    ensures Chosen(a + [x], keep) == if keep(x.facts) then Chosen(a, keep) + [x] else Chosen(a, keep)
  {
    ChosenSame(a, a + [x], keep, |a|);
  }

  lemma {:induction false} ChosenSame(a: seq<Snap>, b: seq<Snap>, keep: Facts -> bool, n: nat)
    requires n <= |a| && n <= |b| && a[..n] == b[..n]
    ensures ChosenUpTo(a, keep, n) == ChosenUpTo(b, keep, n)
  {
    if n > 0 {
      assert a[n - 1] == a[..n][n - 1] && b[n - 1] == b[..n][n - 1];
      assert a[..n - 1] == a[..n][..n - 1] && b[..n - 1] == b[..n][..n - 1];
      ChosenSame(a, b, keep, n - 1);
    }
  }

  // ---- sorting ----------------------------------------------------------------------------

  lemma {:induction false} InsertChosen(s: seq<Snap>, x: Snap, keep: Facts -> bool)
    requires SortedByKey(s, SnapTime)
    ensures Chosen(InsertByKey(s, x, SnapTime), keep) ==
      if keep(x.facts) then InsertByKey(Chosen(s, keep), x, SnapTime) else Chosen(s, keep)
  {
    hide Chosen, LexLess, StampText, InsertByKey;
    if s != [] {
      var front, last := s[..|s| - 1], s[|s| - 1];
      assert s == front + [last];
      ChosenLast(front, last, keep);
      if LexLess(SnapTime(x), SnapTime(last)) {
        InsertChosen(front, x, keep);
        InsertBeforeLast(front, last, x);
        ChosenLast(InsertByKey(front, x, SnapTime), last, keep);
        if keep(last.facts) { InsertBeforeLast(Chosen(front, keep), last, x); }
      } else {
        ChosenLast(s, x, keep);
        LaterThanAll(s, x, keep);
        InsertAfterLast(s, x);
      }
    } else {
      ChosenLast(s, x, keep);
      ChosenNone(keep);
      InsertAfterLast(s, x);
    }
  }

  lemma InsertBeforeLast(s: seq<Snap>, last: Snap, x: Snap)
    requires LexLess(SnapTime(x), SnapTime(last))
    ensures InsertByKey(s + [last], x, SnapTime) == InsertByKey(s, x, SnapTime) + [last]
  {
    assert (s + [last])[..|s|] == s;
  }

  lemma LaterThanAll(s: seq<Snap>, x: Snap, keep: Facts -> bool)
    requires s != [] && SortedByKey(s, SnapTime) && !LexLess(SnapTime(x), SnapTime(s[|s| - 1]))
    ensures InsertByKey(Chosen(s, keep), x, SnapTime) == Chosen(s, keep) + [x]
  {
    hide ChosenUpTo, StampText;
    var C := Chosen(s, keep);
    if C != [] {
      var y := C[|C| - 1];
      ChosenMembers(s, keep, |s|, y);
      assert s[..|s|] == s;
      var i: nat :| i < |s| && s[i] == y;
      if LexLess(SnapTime(x), SnapTime(y)) {
        LexConnected(SnapTime(y), SnapTime(s[|s| - 1]));
        if LexLess(SnapTime(y), SnapTime(s[|s| - 1])) { LexTransitive(SnapTime(x), SnapTime(y), SnapTime(s[|s| - 1])); }
      }
    }
  }

  lemma InsertAfterLast(s: seq<Snap>, x: Snap)
    requires s == [] || !LexLess(SnapTime(x), SnapTime(s[|s| - 1]))
    ensures InsertByKey(s, x, SnapTime) == s + [x]
  {}

  lemma SortNone()
    ensures StableSort([], SnapTime) == []
  {}

  lemma SortLast(M: seq<Snap>, x: Snap)
    ensures StableSort(M + [x], SnapTime) == InsertByKey(StableSort(M, SnapTime), x, SnapTime)
  {
    hide InsertByKey;
    assert (M + [x])[..|M|] == M;
  }

  lemma {:induction false} SortChosen(M: seq<Snap>, keep: Facts -> bool)
    ensures Chosen(StableSort(M, SnapTime), keep) == StableSort(Chosen(M, keep), SnapTime)
  {
    hide Chosen, InsertByKey, StableSort;
    if M == [] {
      ChosenNone(keep);
      SortNone();
    } else {
      var front, last := M[..|M| - 1], M[|M| - 1];
      assert M == front + [last];
      SortChosen(front, keep);
      ChosenLast(front, last, keep);
      SortLast(front, last);
      StableSortCorrect(front, SnapTime, "");
      InsertChosen(StableSort(front, SnapTime), last, keep);
      if keep(last.facts) { SortLast(Chosen(front, keep), last); }
    }
  }

  // ---- deduplication stays within one kind, host and user -----------------------------------

  lemma DuplicatesShare(x: Snap, y: Snap)
    requires Related(SameKey, x, y)
    ensures x.facts.kind == y.facts.kind && x.facts.host == y.facts.host && x.facts.user == y.facts.user
  {}

  /** Deduplicating what one user did on one host gives that part of the deduplicated list. */
  lemma DedupOfOneUser(L: seq<Snap>, host: Option<string>, user: Option<string>)
    ensures var mine := (f: Facts) => f.host == host && f.user == user;
      Chosen(Deduplicated(L), mine) == Deduplicated(Chosen(L, mine))
  {
    hide Merged, Chosen, Related;
    var mine := (f: Facts) => f.host == host && f.user == user;
    forall x, y | x in L && y in L && Related(SameKey, x, y) ensures mine(x.facts) <==> mine(y.facts) {
      DuplicatesShare(x, y);
    }
    MergeCommutes(SameKey, L, mine);
    SortChosen(Merged(SameKey, L), mine);
  }

  // ---- executions stay on one host ------------------------------------------------------------

  lemma ExecutionsShare(window: int, x: Snap, y: Snap)
    requires Related(SameExecution(window), x, y)
    ensures HostText(x.facts) == HostText(y.facts)
  {
    hide Lower, Within;
  }

  lemma ExecutionsOfOneHost(window: int, L: seq<Snap>, host: string)
    ensures var mine := (f: Facts) => HostText(f) == host;
      Chosen(Merged(SameExecution(window), L), mine) == Merged(SameExecution(window), Chosen(L, mine))
  {
    hide Merged, Chosen, Related;
    var rule, mine := SameExecution(window), (f: Facts) => HostText(f) == host;
    forall x, y | x in L && y in L && Related(rule, x, y) ensures mine(x.facts) <==> mine(y.facts) {
      ExecutionsShare(window, x, y);
    }
    MergeCommutes(rule, L, mine);
  }

  // ---- known hosts ------------------------------------------------------------------------------

  /** Every entry says on which host it is. */
  ghost predicate HostsKnown(L: seq<Snap>) {
    forall x :: x in L ==> Normalized(HostText(x.facts)) != ""
  }

  lemma FileAccessesShare(window: int, x: Snap, y: Snap)
    requires Related(SameFile(window), x, y)
    requires Normalized(HostText(x.facts)) != "" && Normalized(HostText(y.facts)) != ""
    ensures Normalized(HostText(x.facts)) == Normalized(HostText(y.facts))
  {
    hide Normalized, Within;
  }

  lemma FileAccessesOfOneHost(window: int, L: seq<Snap>, host: string)
    requires HostsKnown(L)
    ensures var mine := (f: Facts) => Normalized(HostText(f)) == host;
      Chosen(Merged(SameFile(window), L), mine) == Merged(SameFile(window), Chosen(L, mine))
  {
    hide Merged, Chosen, Related, Normalized;
    var rule, mine := SameFile(window), (f: Facts) => Normalized(HostText(f)) == host;
    forall x, y | x in L && y in L && Related(rule, x, y) ensures mine(x.facts) <==> mine(y.facts) {
      FileAccessesShare(window, x, y);
    }
    MergeCommutes(rule, L, mine);
  }

  // ---- the registry pass --------------------------------------------------------------------------

  /** A chosen entry takes only from chosen ones. */
  ghost predicate TakesWithin(L: seq<Snap>, w: int, keep: Facts -> bool) {
    forall x, y :: x in L && y in L && keep(x.facts) && Registry.Takes(x.facts, y.facts, w) ==> keep(y.facts)
  }

  lemma {:induction false} SpreadChosen(L: seq<Snap>, w: int, keep: Facts -> bool, i: nat, g: nat)
    requires TakesWithin(L, w, keep) && i < |L| && g <= |L| && keep(L[i].facts)
    ensures Rank(L, keep, i) < |Chosen(L, keep)| && Rank(L, keep, g) <= |Chosen(L, keep)|
    ensures Registry.Spread(Chosen(L, keep), w, Rank(L, keep, i), Rank(L, keep, g)) == Registry.Spread(L, w, i, g)
    decreases i, g
  {
    hide Registry.Takes, Registry.TakeFrom, ChosenUpTo;
    ChosenAt(L, keep, i);
    RankOrder(L, keep, g, |L|);
    RankSteps(L, keep, g);
    if g > 0 {
      var j := g - 1;
      SpreadChosen(L, w, keep, i, j);
      if keep(L[j].facts) {
        ChosenAt(L, keep, j);
        RankOrder(L, keep, i, j);
        RankOrder(L, keep, j, i);
        if j < i { SpreadChosen(L, w, keep, j, |L|); }
      }
    }
  }

  lemma RegistryCommutes(L: seq<Snap>, w: int, keep: Facts -> bool)
    requires TakesWithin(L, w, keep)
    ensures Chosen(Registry.Correlated(L, w), keep) == Registry.Correlated(Chosen(L, keep), w)
  {
    hide Registry.Takes, Registry.Spread, ChosenUpTo;
    var M, F := Registry.Correlated(L, w), Chosen(L, keep);
    forall i: nat | i < |L| ensures M[i].facts == L[i].facts { Registry.SpreadFacts(L, w, i, |L|); }
    SameRanks(L, M, keep, |L|);
    forall m: nat | m < |F| ensures Chosen(M, keep)[m] == Registry.Correlated(F, w)[m] {
      var i := ChosenFrom(L, keep, |L|, m);
      SameRanks(L, M, keep, i);
      ChosenAt(M, keep, i);
      SpreadChosen(L, w, keep, i, |L|);
    }
  }

  lemma {:induction false} SameRanks(L: seq<Snap>, M: seq<Snap>, keep: Facts -> bool, n: nat)
    requires n <= |L| == |M| && forall i :: 0 <= i < |L| ==> L[i].facts == M[i].facts
    ensures Rank(L, keep, n) == Rank(M, keep, n)
  {
    if n > 0 { SameRanks(L, M, keep, n - 1); }
  }

  lemma TakesShare(f: Facts, g: Facts, w: int)
    requires Registry.Takes(f, g, w) && Normalized(HostText(f)) != "" && Normalized(HostText(g)) != ""
    ensures Normalized(HostText(f)) == Normalized(HostText(g))
  {
    hide Normalized, Registry.PathMatch, Registry.ServiceMatch, Within;
  }

  /** With all hosts known nothing travels from one host to another: the persistence entries of a
      host end as if the list held nothing else. */
  lemma RegistryOfOneHost(L: seq<Snap>, w: int, host: string)
    requires HostsKnown(L)
    ensures var mine := (f: Facts) => Normalized(HostText(f)) == host;
      Chosen(Registry.Correlated(L, w), mine) == Registry.Correlated(Chosen(L, mine), w)
  {
    hide Registry.Takes, Registry.Correlated, Chosen, Normalized;
    var mine := (f: Facts) => Normalized(HostText(f)) == host;
    forall x, y | x in L && y in L && mine(x.facts) && Registry.Takes(x.facts, y.facts, w) ensures mine(y.facts) {
      TakesShare(x.facts, y.facts, w);
    }
    RegistryCommutes(L, w, mine);
  }
}
