/** When the order of the list decides how many entries survive a merge: exactly when the rule is
    not transitive on the entries. The dedup rule always is; the two merging rules need not be. */
module ListOrder {
  import opened Text
  import opened Activities
  import opened Greedy

  // ---- transitive rules --------------------------------------------------------------

  ghost predicate TransitiveOn(rule: Rule, E: set<Snap>) {
    forall x, y, z :: x in E && y in E && z in E && x != z && Related(rule, x, y) && Related(rule, y, z)
      ==> Related(rule, x, z)
  }

  ghost predicate Same(rule: Rule, x: Snap, y: Snap) {
    x == y || Related(rule, x, y)
  }

  lemma SameTransitive(rule: Rule, E: set<Snap>, x: Snap, y: Snap, z: Snap)
    requires TransitiveOn(rule, E) && x in E && y in E && z in E && Same(rule, x, y) && Same(rule, y, z)
    ensures Same(rule, x, z) && Same(rule, z, x)
  {
    hide Related;
    RelatedSymmetric(rule, x, z);
  }

  ghost predicate Independent(rule: Rule, A: set<Snap>) {
    forall x, y :: x in A && y in A && x != y ==> !Related(rule, x, y)
  }

  ghost predicate Covers(rule: Rule, B: set<Snap>, A: set<Snap>) {
    forall x :: x in A ==> exists y :: y in B && Same(rule, x, y)
  }

  /** Entries that are pairwise unrelated are no more than entries that cover them. */
  lemma {:induction false} IndependentIsSmaller(rule: Rule, E: set<Snap>, A: set<Snap>, B: set<Snap>)
    requires TransitiveOn(rule, E) && A <= E && B <= E && Independent(rule, A) && Covers(rule, B, A)
    ensures |A| <= |B|
    decreases |A|
  {
    hide Related;
    if A != {} {
      var x :| x in A;
      var y :| y in B && Same(rule, x, y);
      forall x' | x' in A - {x} ensures exists y' :: y' in B - {y} && Same(rule, x', y') {
        var y' :| y' in B && Same(rule, x', y');
        if y' == y {
          RelatedSymmetric(rule, x, y);
          SameTransitive(rule, E, x', y, x);
        }
      }
      IndependentIsSmaller(rule, E, A - {x}, B - {y});
    }
  }

  // ---- the entries that survive --------------------------------------------------------

  ghost function KeptUpTo(rule: Rule, L: seq<Snap>, n: nat): set<Snap>
    requires n <= |L|
  {
    set j: nat | j < n && Keeps(rule, L, j) :: L[j]
  }

  lemma {:induction false} KeptCount(rule: Rule, L: seq<Snap>, n: nat)
    requires DistinctIds(L) && n <= |L|
    ensures |KeptUpTo(rule, L, n)| == |MergedUpTo(rule, L, n)|
  {
    hide Keeps, Grown, KeptUpTo;
    KeptStep(rule, L, n);
    if n > 0 { KeptCount(rule, L, n - 1); }
  }

  lemma KeptStep(rule: Rule, L: seq<Snap>, n: nat)
    requires DistinctIds(L) && n <= |L|
    ensures KeptUpTo(rule, L, 0) == {}
    ensures n > 0 ==> L[n - 1] !in KeptUpTo(rule, L, n - 1)
    ensures n > 0 ==>
      KeptUpTo(rule, L, n) == KeptUpTo(rule, L, n - 1) + if Keeps(rule, L, n - 1) then {L[n - 1]} else {}
  {
    hide Keeps;
    if n > 0 { DistinctEntries(L, n - 1); }
  }

  lemma KeptIsIndependent(rule: Rule, L: seq<Snap>)
    ensures Independent(rule, KeptUpTo(rule, L, |L|))
  {
    hide Related;
    var A := KeptUpTo(rule, L, |L|);
    forall x, y | x in A && y in A && x != y ensures !Related(rule, x, y) {
      var i: nat :| i < |L| && Keeps(rule, L, i) && L[i] == x;
      var j: nat :| j < |L| && Keeps(rule, L, j) && L[j] == y;
      RelatedSymmetric(rule, x, y);
      assert i < j || j < i;
    }
  }

  lemma KeptCovers(rule: Rule, L: seq<Snap>)
    ensures Covers(rule, KeptUpTo(rule, L, |L|), Elems(L))
  {
    hide Related;
    forall x | x in Elems(L) ensures exists y :: y in KeptUpTo(rule, L, |L|) && Same(rule, x, y) {
      var j: nat :| j < |L| && L[j] == x;
      var i := j;
      if !Keeps(rule, L, j) {
        i :| 0 <= i < j && Related(rule, L[i], L[j]) && Keeps(rule, L, i);
        RelatedSymmetric(rule, L[i], L[j]);
      }
      assert L[i] in KeptUpTo(rule, L, |L|);
    }
  }

  lemma NoMoreSurvivors(rule: Rule, L: seq<Snap>, M: seq<Snap>)
    requires DistinctIds(L) && DistinctIds(M) && Elems(L) == Elems(M) && TransitiveOn(rule, Elems(L))
    ensures |Merged(rule, L)| <= |Merged(rule, M)|
  {
    hide TransitiveOn, Independent, Covers, KeptUpTo, MergedUpTo;
    KeptCount(rule, L, |L|);
    KeptCount(rule, M, |M|);
    KeptIsIndependent(rule, L);
    KeptCovers(rule, M);
    var A, B := KeptUpTo(rule, L, |L|), KeptUpTo(rule, M, |M|);
    KeptAreEntries(rule, L);
    KeptAreEntries(rule, M);
    CoversPart(rule, B, Elems(M), A);
    IndependentIsSmaller(rule, Elems(L), A, B);
  }

  lemma KeptAreEntries(rule: Rule, L: seq<Snap>)
    ensures KeptUpTo(rule, L, |L|) <= Elems(L)
  {}

  lemma CoversPart(rule: Rule, B: set<Snap>, A: set<Snap>, part: set<Snap>)
    requires Covers(rule, B, A) && part <= A
    ensures Covers(rule, B, part)
  {}

  /** On entries where the rule is transitive every list order leaves the same number of them. */
  lemma TransitiveCount(rule: Rule, L: seq<Snap>, M: seq<Snap>)
    requires DistinctIds(L) && DistinctIds(M) && Elems(L) == Elems(M) && TransitiveOn(rule, Elems(L))
    ensures |Merged(rule, L)| == |Merged(rule, M)|
  {
    NoMoreSurvivors(rule, L, M);
    NoMoreSurvivors(rule, M, L);
  }

  /** There, each survivor ends with exactly the evidence of all the entries related to it, so
      that the order decides only which of them lends its name. */
  lemma SurvivorHoldsGroup(rule: Rule, L: seq<Snap>, i: nat, c: Channel, r: string)
    requires DistinctIds(L) && TransitiveOn(rule, Elems(L)) && i < |L| && Keeps(rule, L, i)
    ensures r in Carried(c, Grown(rule, L, i, |L|).body) <==>
      exists j :: 0 <= j < |L| && Same(rule, L[i], L[j]) && r in Carried(c, L[j].body)
  {
    hide Related, Carried, Grown, TransitiveOn;
    GrownEvidence(rule, L, i, |L|, c, r);
    forall j: nat | j < |L| && j != i ensures Absorbs(rule, L, i, j) <==> Related(rule, L[i], L[j]) {
      AbsorbsAllRelated(rule, L, i, j);
    }
    assert forall j :: 0 <= j < |L| && j != i ==> L[j] != L[i] by { DistinctEntries(L, i); }
  }

  lemma DistinctEntries(L: seq<Snap>, i: nat)
    requires DistinctIds(L) && i < |L|
    ensures forall j :: 0 <= j < |L| && j != i ==> L[j] != L[i]
  {
    forall j | 0 <= j < |L| && j != i ensures L[j] != L[i] {
      assert L[j].facts.id != L[i].facts.id;
    }
  }

  lemma AbsorbsAllRelated(rule: Rule, L: seq<Snap>, i: nat, j: nat)
    requires DistinctIds(L) && TransitiveOn(rule, Elems(L)) && i < |L| && j < |L| && i != j && Keeps(rule, L, i)
    ensures Absorbs(rule, L, i, j) <==> Related(rule, L[i], L[j])
  {
    hide Related;
    if Related(rule, L[i], L[j]) {
      RelatedSymmetric(rule, L[i], L[j]);
      forall h | 0 <= h < |L| && h < i && Related(rule, L[h], L[j]) ensures !Keeps(rule, L, h) {
        assert L[h].facts.id != L[i].facts.id;
        assert Related(rule, L[h], L[i]);
      }
      assert !Keeps(rule, L, j) || i < j;
      assert i < j;
    }
  }

  // ---- the exact condition -----------------------------------------------------------------

  /** Every selection of the entries leaves the same number of survivors in every order. */
  ghost predicate OrderFree(rule: Rule, E: set<Snap>) {
    forall A, B :: Elems(A) <= E && Elems(A) == Elems(B) && DistinctIds(A) && DistinctIds(B)
      ==> |Merged(rule, A)| == |Merged(rule, B)|
  }

  lemma OrderFreeIffTransitive(rule: Rule, L: seq<Snap>)
    requires DistinctIds(L)
    ensures OrderFree(rule, Elems(L)) <==> TransitiveOn(rule, Elems(L))
  {
    hide Related, Merged;
    var E := Elems(L);
    if TransitiveOn(rule, E) {
      forall A, B | Elems(A) <= E && Elems(A) == Elems(B) && DistinctIds(A) && DistinctIds(B)
        ensures |Merged(rule, A)| == |Merged(rule, B)|
      {
        TransitiveCount(rule, A, B);
      }
    } else {
      var x, y, z :| x in E && y in E && z in E && x != z && Related(rule, x, y) && Related(rule, y, z)
        && !Related(rule, x, z);
      var A, B := [x, y, z], [y, x, z];
      SelfRelated(rule, x, y, z);
      DistinctTriple(L, x, y, z);
      DistinctTriple(L, y, x, z);
      OrderDecidesSurvivors(rule, x, y, z);
      assert Elems(A) == {x, y, z} && Elems(B) == {x, y, z};
      assert |Merged(rule, A)| != |Merged(rule, B)|;
    }
  }

  /** Where transitivity fails the three entries are different ones. */
  lemma SelfRelated(rule: Rule, x: Snap, y: Snap, z: Snap)
    requires Related(rule, x, y) && Related(rule, y, z) && !Related(rule, x, z)
    ensures x != y && y != z
  {}

  lemma DistinctTriple(L: seq<Snap>, x: Snap, y: Snap, z: Snap)
    requires DistinctIds(L) && x in L && y in L && z in L && x != y && y != z && x != z
    ensures DistinctIds([x, y, z])
  {
    var i: nat :| i < |L| && L[i] == x;
    var j: nat :| j < |L| && L[j] == y;
    var k: nat :| k < |L| && L[k] == z;
  }

  lemma OrderDecidesSurvivors(rule: Rule, x: Snap, y: Snap, z: Snap)
    requires Related(rule, x, y) && Related(rule, y, z) && !Related(rule, x, z)
    ensures |Merged(rule, [x, y, z])| == 2
    ensures |Merged(rule, [y, x, z])| == 1
  {
    RelatedSymmetric(rule, x, y);
    ThreeEntries(rule, x, y, z);
    ThreeEntries(rule, y, x, z);
  }

  lemma ThreeEntries(rule: Rule, x: Snap, y: Snap, z: Snap)
    requires Related(rule, x, y)
    ensures |Merged(rule, [x, y, z])| == if Related(rule, x, z) then 1 else 2
  {
    hide Related, Grown;
    var L := [x, y, z];
    assert Keeps(rule, L, 0) && !Keeps(rule, L, 1);
    assert Keeps(rule, L, 2) == !Related(rule, x, z);
    assert |MergedUpTo(rule, L, 0)| == 0;
    assert |MergedUpTo(rule, L, 1)| == 1;
    assert |MergedUpTo(rule, L, 2)| == 1;
  }

  // ---- the three rules -----------------------------------------------------------------------

  /** Deduplication leaves the same number of entries in every order: one per key. */
  lemma DedupIsOrderFree(E: set<Snap>)
    ensures TransitiveOn(SameKey, E)
  {
    hide BucketKey;
  }

  /** Two neighbours of one file access are related to each other unless their hosts differ, their
      sources are the same or they lie too far apart. */
  lemma FileRuleTransitiveIff(window: int, x: Snap, y: Snap, z: Snap)
    requires Related(SameFile(window), x, y) && Related(SameFile(window), y, z)
    ensures Related(SameFile(window), x, z) <==>
      && HostsAgree(x.facts, z.facts)
      && Normalized(Field(x.facts, "source")) != Normalized(Field(z.facts, "source"))
      && Within(z.facts.stamp, x.facts.stamp, window)
  {
    hide Normalized, Within;
  }

  /** Two neighbours of one execution are never related to each other: one of every related pair
      comes from prefetch and the other does not. */
  lemma ExecutionRuleNeverTransitive(window: int, x: Snap, y: Snap, z: Snap)
    requires Related(SameExecution(window), x, y) && Related(SameExecution(window), y, z)
    ensures !Related(SameExecution(window), x, z)
    ensures SourceText(y.facts) == "prefetch" <==> SourceText(x.facts) != "prefetch"
  {
    hide Lower, Within;
  }

  /** So the list order does not matter for executions exactly where nothing is related to two others. */
  lemma ExecutionsOrderFreeIff(window: int, L: seq<Snap>)
    requires DistinctIds(L)
    ensures OrderFree(SameExecution(window), Elems(L)) <==>
      forall x, y, z :: x in L && y in L && z in L && x != z
        ==> !(Related(SameExecution(window), x, y) && Related(SameExecution(window), y, z))
  {
    hide Related, OrderFree;
    var rule := SameExecution(window);
    OrderFreeIffTransitive(rule, L);
    forall x, y, z | Related(rule, x, y) && Related(rule, y, z) ensures !Related(rule, x, z) {
      ExecutionRuleNeverTransitive(window, x, y, z);
    }
    assert forall x :: x in Elems(L) <==> x in L;
  }

  // ---- inputs on which the order decides --------------------------------------------------------

  /** An access to one file by a known or unknown host. */
  function Access(id: nat, host: Option<string>, source: string, minute: int): Snap {
    var at := GoodStamp("t", minute * 60_000_000, 0);
    Snap(Facts(id, "opened_file", at, host, None, map["file_path" := "f", "source" := source]),
         Body([], [], [], [], 0.5, "", [], map[], map[]))
  }

  predicate CleanHost(host: Option<string>) {
    host.Some? ==> Normalized(host.value) == host.value && host.value != ""
  }

  lemma AccessRelated(x: Snap, y: Snap, h: Option<string>, k: Option<string>, s: string, t: string, m: int, n: int)
    requires x == Access(x.facts.id, h, s, m) && y == Access(y.facts.id, k, t, n)
    requires CleanHost(h) && CleanHost(k) && Normalized(s) == s && Normalized(t) == t
    ensures HostsAgree(x.facts, y.facts) <==> h.None? || k.None? || h == k
    ensures Normalized(Field(x.facts, "source")) == s && Normalized(Field(y.facts, "source")) == t
    ensures Within(y.facts.stamp, x.facts.stamp, 1800) <==> -30 <= n - m <= 30
    ensures Related(SameFile(1800), x, y) <==> (h.None? || k.None? || h == k) && s != t && -30 <= n - m <= 30
  {
    hide Normalized;
    OneLetter('f');
    assert Normalized("") == "" by { NothingNormalized(); }
  }

  lemma NothingNormalized()
    ensures Normalized("") == ""
  {}

  /** Each of the three causes alone: an unknown host between two known ones, a repeated source, a
      chain of times that is longer than the window. */
  lemma FileRuleNotTransitive(cause: nat) returns (x: Snap, y: Snap, z: Snap)
    ensures Related(SameFile(1800), x, y) && Related(SameFile(1800), y, z) && !Related(SameFile(1800), x, z)
    ensures HostsAgree(x.facts, z.facts) <==> cause != 0
    ensures Normalized(Field(x.facts, "source")) != Normalized(Field(z.facts, "source")) <==> cause != 1
    ensures Within(z.facts.stamp, x.facts.stamp, 1800) <==> cause == 0 || cause == 1
  {
    hide Related, HostsAgree, Normalized, Within, Access;
    OneLetter('a'); OneLetter('b'); OneLetter('c'); OneLetter('p'); OneLetter('q');
    var p := Some("p");
    var h, k, v := p, if cause == 0 then None else p, if cause == 0 then Some("q") else p;
    var last := if cause == 1 then "a" else "c";
    var m, n := if cause < 2 then 0 else 20, if cause < 2 then 0 else 40;
    x, y, z := Access(1, h, "a", 0), Access(2, k, "b", m), Access(3, v, last, n);
    AccessIds(1, h, "a", 0);
    AccessIds(2, k, "b", m);
    AccessIds(3, v, last, n);
    AccessRelated(x, y, h, k, "a", "b", 0, m);
    AccessRelated(y, z, k, v, "b", last, m, n);
    AccessRelated(x, z, h, v, "a", last, 0, n);
  }

  lemma AccessIds(id: nat, host: Option<string>, source: string, minute: int)
    ensures Access(id, host, source, minute).facts.id == id
  {}

  function Start(id: nat, source: string): Snap {
    var fields := map["process_name" := "f", "source" := source];
    Snap(Facts(id, "program_execution", GoodStamp("t", 0, 0), None, None, fields),
         Body([], [], [], [], 0.5, "", [], map[], map[]))
  }

  lemma StartRelated(x: Snap, y: Snap, s: string, t: string)
    requires x == Start(x.facts.id, s) && y == Start(y.facts.id, t) && Lower(s) == s && Lower(t) == t
    ensures Related(SameExecution(600), x, y) <==> s != t && (s == "prefetch" || t == "prefetch")
  {
    hide Lower;
    assert Lower("f") == "f" by { LowerF(); }
  }

  lemma LowerF()
    ensures Lower("f") == "f" && Lower("a") == "a" && Lower("prefetch") == "prefetch"
  {}

  /** Two prefetch records of one start: which of the three comes first decides. */
  lemma ExecutionRuleNotTransitive() returns (x: Snap, y: Snap, z: Snap)
    ensures Related(SameExecution(600), x, y) && Related(SameExecution(600), y, z)
    ensures !Related(SameExecution(600), x, z)
    ensures |Merged(SameExecution(600), [x, y, z])| == 2 && |Merged(SameExecution(600), [y, x, z])| == 1
  {
    hide Merged, Related, Lower;
    x, y, z := Start(1, "prefetch"), Start(2, "a"), Start(3, "prefetch");
    LowerF();
    StartRelated(x, y, "prefetch", "a");
    StartRelated(y, z, "a", "prefetch");
    StartRelated(x, z, "prefetch", "prefetch");
    OrderDecidesSurvivors(SameExecution(600), x, y, z);
  }
}
