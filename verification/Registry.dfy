/** `correlate_registry_persistence_sources`: a persistence entry takes the evidence of every
    execution entry it matches. `service_modified` entries play both parts, so evidence can
    travel through several matches, depending on the list order. */
module Registry {
  import opened Text
  import opened Activities
  import opened Greedy
  import opened MergePasses

  const PERSISTENCE_KINDS := {"persistence", "service_modified"}
  const STARTED_KINDS := {"program_execution", "powershell_execution", "service_created", "service_modified"}

  function PathHint(f: Facts): string {
    Normalized(FirstField(f, ["path", "command", "image_path", "service_dll"]))
  }

  function StartedPath(f: Facts): string {
    Normalized(FirstField(f, ["process_path", "command_line", "image_path"]))
  }

  predicate PathMatch(f: Facts, g: Facts) {
    var hint, path := PathHint(f), StartedPath(g);
    hint != "" && path != "" && (hint == path || Contains(path, hint) || Contains(hint, path))
  }

  predicate ServiceMatch(f: Facts, g: Facts) {
    Normalized(Field(f, "service_name")) != ""
      && Normalized(Field(f, "service_name")) == Normalized(Field(g, "service_name"))
  }

  /** The guard of the inner loop. */
  predicate Matches(f: Facts, g: Facts, window: int) {
    && f.id != g.id
    && HostsAgree(f, g)
    && (f.stamp.GoodStamp? && g.stamp.GoodStamp? ==> Within(g.stamp, f.stamp, window))
    && (PathMatch(f, g) || ServiceMatch(f, g))
  }

  /** `f` takes evidence from `g`. */
  predicate Takes(f: Facts, g: Facts, window: int) {
    f.kind in PERSISTENCE_KINDS && g.kind in STARTED_KINDS && Matches(f, g, window)
  }

  function TakeFrom(x: Snap, y: Snap): Snap {
    Snap(x.facts, WithEvidence(x.body, y.body, ["registry_correlated"]).(
      reasons := MergeLists(x.body.reasons, y.body.reasons),
      confidence := MaxReal(x.body.confidence, if PathMatch(x.facts, y.facts) then 0.94 else 0.9)))
  }

  /** Entry `i` after its inner loop has passed `L[..g]`. Entries before `i` have already been
      through their own inner loop, entries after it have not. */
  function Spread(L: seq<Snap>, w: int, i: nat, g: nat): Snap
    requires i < |L| && g <= |L|
    decreases i, g
  {
    if g == 0 then L[i]
    else
      var j, before := g - 1, Spread(L, w, i, g - 1);
      if Takes(L[i].facts, L[j].facts, w)
      then TakeFrom(before, if j < i then Spread(L, w, j, |L|) else L[j])
      else before
  }

  function Correlated(L: seq<Snap>, w: int): seq<Snap> {
    seq(|L|, i requires 0 <= i < |L| => Spread(L, w, i, |L|))
  }

  // ---- how far evidence travels ------------------------------------------

  lemma {:induction false} SpreadFacts(L: seq<Snap>, w: int, i: nat, g: nat)
    requires i < |L| && g <= |L|
    ensures Spread(L, w, i, g).facts == L[i].facts
    ensures Spread(L, w, i, g).body.links == L[i].body.links
  {
    hide Takes;
    if g > 0 { SpreadFacts(L, w, i, g - 1); }
  }

  lemma {:induction false} SpreadUntouched(L: seq<Snap>, w: int, i: nat, g: nat, h: nat)
    requires i < |L| && g <= h <= |L|
    requires forall j :: g <= j < h ==> !Takes(L[i].facts, L[j].facts, w)
    ensures Spread(L, w, i, h) == Spread(L, w, i, g)
    decreases h
  {
    hide Takes, TakeFrom;
    if g < h { SpreadUntouched(L, w, i, g, h - 1); }
  }

  /** Evidence of `k` gets to `i` through matches whose targets stand ever earlier in the list. */
  ghost predicate Chain(L: seq<Snap>, w: int, i: nat, k: nat)
    requires i < |L| && k < |L|
    decreases i
  {
    || i == k
    || Takes(L[i].facts, L[k].facts, w)
    || exists j :: 0 <= j < i && Takes(L[i].facts, L[j].facts, w) && Chain(L, w, j, k)
  }

  /** The same for the part of the inner loop that has passed `L[..g]`. */
  ghost predicate ChainUpTo(L: seq<Snap>, w: int, i: nat, g: nat, k: nat)
    requires i < |L| && k < |L| && g <= |L|
  {
    || i == k
    || (k < g && Takes(L[i].facts, L[k].facts, w))
    || exists j :: 0 <= j < i && j < g && Takes(L[i].facts, L[j].facts, w) && Chain(L, w, j, k)
  }

  ghost predicate ArrivesFrom(L: seq<Snap>, w: int, c: Channel, i: nat, g: nat, r: string)
    requires i < |L| && g <= |L|
  {
    exists k :: 0 <= k < |L| && ChainUpTo(L, w, i, g, k) && r in Carried(c, L[k].body)
  }

  lemma TakeFromEvidence(x: Snap, y: Snap, c: Channel, r: string)
    ensures r in Carried(c, TakeFrom(x, y).body) <==> r in Carried(c, x.body) || r in Carried(c, y.body)
  {
    hide SortedSet, PathMatch;
    var z := TakeFrom(x, y);
    assert Carried(c, z.body) == MergeLists(Carried(c, x.body), Carried(c, y.body));
    assert r in Carried(c, z.body) <==> r in Elems(MergeLists(Carried(c, x.body), Carried(c, y.body)));
  }

  /** One more candidate adds the chains that start with it. */
  lemma ArrivalStep(L: seq<Snap>, w: int, c: Channel, i: nat, g: nat, r: string)
    requires i < |L| && 0 < g <= |L|
    ensures ArrivesFrom(L, w, c, i, g, r) <==>
      || ArrivesFrom(L, w, c, i, g - 1, r)
      || (Takes(L[i].facts, L[g - 1].facts, w) &&
          (r in Carried(c, L[g - 1].body) || (g - 1 < i && ArrivesFrom(L, w, c, g - 1, |L|, r))))
  {
    hide Takes, Carried;
    var j: nat := g - 1;
    assert forall k: nat :: k < |L| ==> (Chain(L, w, j, k) <==> ChainUpTo(L, w, j, |L|, k));
    if ArrivesFrom(L, w, c, i, g, r) {
      var k :| 0 <= k < |L| && ChainUpTo(L, w, i, g, k) && r in Carried(c, L[k].body);
      assert ChainUpTo(L, w, i, g - 1, k) || Takes(L[i].facts, L[j].facts, w);
    }
    if Takes(L[i].facts, L[j].facts, w) {
      if r in Carried(c, L[j].body) { assert ChainUpTo(L, w, i, g, j); }
      if j < i && ArrivesFrom(L, w, c, j, |L|, r) {
        var k :| 0 <= k < |L| && ChainUpTo(L, w, j, |L|, k) && r in Carried(c, L[k].body);
        assert ChainUpTo(L, w, i, g, k);
      }
    }
    if ArrivesFrom(L, w, c, i, g - 1, r) {
      var k :| 0 <= k < |L| && ChainUpTo(L, w, i, g - 1, k) && r in Carried(c, L[k].body);
      assert ChainUpTo(L, w, i, g, k);
    }
  }

  lemma {:induction false} SpreadArrives(L: seq<Snap>, w: int, c: Channel, i: nat, g: nat, r: string)
    requires i < |L| && g <= |L|
    ensures r in Carried(c, Spread(L, w, i, g).body) <==> ArrivesFrom(L, w, c, i, g, r)
    decreases i, g
  {
    hide Takes, TakeFrom, Carried;
    if g == 0 {
      assert ChainUpTo(L, w, i, 0, i);
    } else {
      var j := g - 1;
      SpreadArrives(L, w, c, i, j, r);
      ArrivalStep(L, w, c, i, g, r);
      if Takes(L[i].facts, L[j].facts, w) {
        var y := if j < i then Spread(L, w, j, |L|) else L[j];
        TakeFromEvidence(Spread(L, w, i, j), y, c, r);
        if j < i {
          SpreadArrives(L, w, c, j, |L|, r);
          if r in Carried(c, L[j].body) { SelfArrives(L, w, c, j, r); }
        }
      }
    }
  }

  lemma SelfArrives(L: seq<Snap>, w: int, c: Channel, j: nat, r: string)
    requires j < |L| && r in Carried(c, L[j].body)
    ensures ArrivesFrom(L, w, c, j, |L|, r)
  {
    assert ChainUpTo(L, w, j, |L|, j);
  }

  /** The exact result: entry `i` ends with the original evidence of the entries it has a chain to. */
  lemma SpreadIsChains(L: seq<Snap>, w: int, c: Channel, i: nat, r: string)
    requires i < |L|
    ensures r in Carried(c, Correlated(L, w)[i].body) <==>
      exists k :: 0 <= k < |L| && Chain(L, w, i, k) && r in Carried(c, L[k].body)
  {
    hide Takes, Carried, Spread;
    SpreadArrives(L, w, c, i, |L|, r);
    assert forall k: nat :: k < |L| ==> (Chain(L, w, i, k) <==> ChainUpTo(L, w, i, |L|, k));
  }

  /** A route along direct matches, in any list order. */
  ghost predicate Route(L: seq<Snap>, w: int, p: seq<nat>) {
    && p != []
    && (forall k :: 0 <= k < |p| ==> p[k] < |L|)
    && (forall k :: 0 <= k < |p| - 1 ==> Takes(L[p[k]].facts, L[p[k + 1]].facts, w))
  }

  ghost predicate Reaches(L: seq<Snap>, w: int, i: nat, k: nat) {
    exists p :: Route(L, w, p) && p[0] == i && p[|p| - 1] == k
  }

  lemma {:induction false} ChainHasRoute(L: seq<Snap>, w: int, i: nat, k: nat) returns (p: seq<nat>)
    requires i < |L| && k < |L| && Chain(L, w, i, k)
    ensures Route(L, w, p) && p[0] == i && p[|p| - 1] == k
    decreases i
  {
    hide Takes;
    if i == k {
      p := [i];
    } else if Takes(L[i].facts, L[k].facts, w) {
      p := [i, k];
    } else {
      var j :| 0 <= j < i && Takes(L[i].facts, L[j].facts, w) && Chain(L, w, j, k);
      var q := ChainHasRoute(L, w, j, k);
      p := [i] + q;
    }
  }

  /** Whatever the list order, an entry holds at least its own evidence and the original evidence
      of every direct match, and nothing that no route of matches leads to. */
  lemma SpreadSandwich(L: seq<Snap>, w: int, c: Channel, i: nat, r: string)
    requires i < |L|
    ensures (r in Carried(c, L[i].body)
             || exists k :: 0 <= k < |L| && Takes(L[i].facts, L[k].facts, w) && r in Carried(c, L[k].body))
            ==> r in Carried(c, Correlated(L, w)[i].body)
    ensures r in Carried(c, Correlated(L, w)[i].body) ==>
      exists k :: 0 <= k < |L| && Reaches(L, w, i, k) && r in Carried(c, L[k].body)
  {
    hide Takes, Carried, Spread;
    SpreadIsChains(L, w, c, i, r);
    assert Chain(L, w, i, i);
    if r in Carried(c, Correlated(L, w)[i].body) {
      var k :| 0 <= k < |L| && Chain(L, w, i, k) && r in Carried(c, L[k].body);
      var p := ChainHasRoute(L, w, i, k);
      assert Reaches(L, w, i, k);
    }
  }

  /** Whatever an entry takes from and that takes itself stands before it. */
  ghost predicate SourcesEarlier(L: seq<Snap>, w: int) {
    forall a, b | 0 <= a < |L| && 0 <= b < |L| && L[b].facts.kind in PERSISTENCE_KINDS ::
      Takes(L[a].facts, L[b].facts, w) ==> b < a
  }

  /** ... or after it. */
  ghost predicate SourcesLater(L: seq<Snap>, w: int) {
    forall a, b | 0 <= a < |L| && 0 <= b < |L| && L[b].facts.kind in PERSISTENCE_KINDS ::
      Takes(L[a].facts, L[b].facts, w) ==> a < b
  }

  /** How the list order decides between the bounds. When sources stand before the entries that
      take from them, evidence travels every route; when they stand after them, it makes a single
      step. */
  lemma SandwichIsTight(L: seq<Snap>, w: int, i: nat, k: nat)
    requires i < |L| && k < |L|
    ensures SourcesEarlier(L, w) ==> (Chain(L, w, i, k) <==> Reaches(L, w, i, k))
    ensures SourcesLater(L, w) ==> (Chain(L, w, i, k) <==> i == k || Takes(L[i].facts, L[k].facts, w))
  {
    hide Matches;
    if Chain(L, w, i, k) {
      var p := ChainHasRoute(L, w, i, k);
      assert Reaches(L, w, i, k);
    }
    if SourcesEarlier(L, w) {
      if Reaches(L, w, i, k) {
        var p :| Route(L, w, p) && p[0] == i && p[|p| - 1] == k;
        RouteIsChain(L, w, p);
      }
    }
  }

  lemma {:induction false} RouteIsChain(L: seq<Snap>, w: int, p: seq<nat>)
    requires Route(L, w, p)
    requires SourcesEarlier(L, w)
    ensures Chain(L, w, p[0], p[|p| - 1])
  {
    hide Matches;
    if |p| > 2 {
      var q := p[1..];
      assert forall n :: 0 <= n < |q| ==> q[n] == p[n + 1];
      RouteIsChain(L, w, q);
      assert Takes(L[p[0]].facts, L[p[1]].facts, w) && Takes(L[p[1]].facts, L[p[2]].facts, w);
    } else if |p| == 2 {
      assert Takes(L[p[0]].facts, L[p[0 + 1]].facts, w);
    }
  }

  // ---- when the list order does not matter ---------------------------------------------

  ghost predicate TransitiveTakes(E: set<Snap>, w: int) {
    forall x, y, z :: x in E && y in E && z in E && x != z && Takes(x.facts, y.facts, w) && Takes(y.facts, z.facts, w)
      ==> Takes(x.facts, z.facts, w)
  }

  /** Evidence makes single steps only: an entry receives from its direct matches. */
  ghost predicate SingleSteps(L: seq<Snap>, w: int) {
    forall i: nat, k: nat :: i < |L| && k < |L| ==>
      (Chain(L, w, i, k) <==> i == k || Takes(L[i].facts, L[k].facts, w))
  }

  lemma {:induction false} TransitiveStep(L: seq<Snap>, w: int, i: nat, k: nat)
    requires DistinctIds(L) && TransitiveTakes(Elems(L), w) && i < |L| && k < |L| && Chain(L, w, i, k)
    ensures i == k || Takes(L[i].facts, L[k].facts, w)
    decreases i
  {
    hide Takes;
    if j :| 0 <= j < i && Takes(L[i].facts, L[j].facts, w) && Chain(L, w, j, k) {
      TransitiveStep(L, w, j, k);
      assert i != k ==> L[i].facts.id != L[k].facts.id;
      assert L[i] in Elems(L) && L[j] in Elems(L) && L[k] in Elems(L);
    }
  }

  lemma TransitiveSingleSteps(L: seq<Snap>, w: int)
    requires DistinctIds(L) && TransitiveTakes(Elems(L), w)
    ensures SingleSteps(L, w)
  {
    hide Takes, TransitiveTakes;
    forall i: nat, k: nat | i < |L| && k < |L| && Chain(L, w, i, k) ensures i == k || Takes(L[i].facts, L[k].facts, w) {
      TransitiveStep(L, w, i, k);
    }
  }

  /** There, an entry ends with its own evidence and that of its direct matches, in every order. */
  lemma TransitiveEvidence(L: seq<Snap>, w: int, c: Channel, i: nat, r: string)
    requires DistinctIds(L) && TransitiveTakes(Elems(L), w) && i < |L|
    ensures r in Carried(c, Correlated(L, w)[i].body) <==>
      || r in Carried(c, L[i].body)
      || exists k :: 0 <= k < |L| && Takes(L[i].facts, L[k].facts, w) && r in Carried(c, L[k].body)
  {
    hide Takes, Carried, Correlated, TransitiveTakes, Chain;
    SpreadIsChains(L, w, c, i, r);
    TransitiveSingleSteps(L, w);
    if r in Carried(c, L[i].body) { assert Chain(L, w, i, i); }
  }

  /** In every order of every selection of the entries evidence makes single steps. */
  ghost predicate OrderFree(E: set<Snap>, w: int) {
    forall A :: Elems(A) <= E && DistinctIds(A) ==> SingleSteps(A, w)
  }

  /** The list order does not matter exactly where taking is transitive between different entries. */
  lemma OrderFreeIffTransitive(L: seq<Snap>, w: int)
    requires DistinctIds(L)
    ensures OrderFree(Elems(L), w) <==> TransitiveTakes(Elems(L), w)
  {
    hide Takes, SingleSteps, DistinctIds, TransitiveTakes;
    var E := Elems(L);
    if TransitiveTakes(E, w) {
      forall A | Elems(A) <= E && DistinctIds(A) ensures SingleSteps(A, w) {
        TransitivePart(E, Elems(A), w);
        TransitiveSingleSteps(A, w);
      }
    } else {
      var x, y, z := NotTransitive(L, w);
      var A := [z, y, x];
      TwoSteps(x, y, z, w);
      assert Elems(A) <= E;
    }
  }

  lemma TransitivePart(E: set<Snap>, part: set<Snap>, w: int)
    requires TransitiveTakes(E, w) && part <= E
    ensures TransitiveTakes(part, w)
  {
    hide Takes;
  }

  lemma NotTransitive(L: seq<Snap>, w: int) returns (x: Snap, y: Snap, z: Snap)
    requires DistinctIds(L) && !TransitiveTakes(Elems(L), w)
    ensures x in L && y in L && z in L && DistinctIds([z, y, x])
    ensures Takes(x.facts, y.facts, w) && Takes(y.facts, z.facts, w) && !Takes(x.facts, z.facts, w)
  {
    hide Takes;
    var E := Elems(L);
    x, y, z :| x in E && y in E && z in E && x != z && Takes(x.facts, y.facts, w) && Takes(y.facts, z.facts, w)
      && !Takes(x.facts, z.facts, w);
    TakesOther(x.facts, y.facts, w);
    TakesOther(y.facts, z.facts, w);
    ThreeInReverse(L, x, y, z);
  }

  lemma TakesOther(f: Facts, g: Facts, w: int)
    requires Takes(f, g, w)
    ensures f != g
  {}

  lemma ThreeInReverse(L: seq<Snap>, x: Snap, y: Snap, z: Snap)
    requires DistinctIds(L) && x in L && y in L && z in L && x != y && y != z && x != z
    ensures DistinctIds([z, y, x])
  {
    var i: nat :| i < |L| && L[i] == x;
    var j: nat :| j < |L| && L[j] == y;
    var k: nat :| k < |L| && L[k] == z;
  }

  lemma TwoSteps(x: Snap, y: Snap, z: Snap, w: int)
    requires Takes(x.facts, y.facts, w) && Takes(y.facts, z.facts, w) && !Takes(x.facts, z.facts, w)
    ensures Chain([z, y, x], w, 2, 0) && !SingleSteps([z, y, x], w)
  {
    hide Takes;
    var L := [z, y, x];
    assert Chain(L, w, 1, 0);
    assert Chain(L, w, 2, 0);
  }

  /** For any three entries of which `x` takes from `y` and `y` from `z`, but not `x` from `z`: what
      only `z` holds reaches `x` with sources first, and does not with sources last. */
  lemma OrderDecidesReach(x: Snap, y: Snap, z: Snap, w: int, c: Channel, r: string)
    requires Takes(x.facts, y.facts, w) && Takes(y.facts, z.facts, w) && !Takes(x.facts, z.facts, w)
    requires r in Carried(c, z.body) && r !in Carried(c, x.body) && r !in Carried(c, y.body)
    ensures r in Carried(c, Correlated([z, y, x], w)[2].body)
    ensures r !in Carried(c, Correlated([x, y, z], w)[0].body)
  {
    hide Takes, Correlated, Carried;
    SourcesFirst(x, y, z, w, c, r);
    SourcesLast(x, y, z, w, c, r);
  }

  /** Such entries exist: a persistence entry, a service entry it names, an execution that names. */
  lemma TakesNotTransitive(w: int) returns (x: Snap, y: Snap, z: Snap)
    ensures Takes(x.facts, y.facts, w) && Takes(y.facts, z.facts, w) && !Takes(x.facts, z.facts, w)
    ensures x.body.refs == [] && y.body.refs == [] && z.body.refs == ["r"]
  {
    hide Takes;
    var b := Body([], [], [], [], 0.5, "", [], map[], map[]);
    x := Snap(Facts(0, "persistence", NoStamp, None, None, map["path" := "a"]), b);
    y := Snap(Facts(1, "service_modified", NoStamp, None, None, map["path" := "b", "process_path" := "a"]), b);
    z := Snap(Facts(2, "program_execution", NoStamp, None, None, map["process_path" := "b"]), b.(refs := ["r"]));
    WitnessMatches(x.facts, y.facts, z.facts, w);
  }

  lemma WitnessPaths(f: Facts, g: Facts, h: Facts)
    requires f == Facts(0, "persistence", NoStamp, None, None, map["path" := "a"])
    requires g == Facts(1, "service_modified", NoStamp, None, None, map["path" := "b", "process_path" := "a"])
    requires h == Facts(2, "program_execution", NoStamp, None, None, map["process_path" := "b"])
    ensures PathHint(f) == "a" && PathHint(g) == "b" && StartedPath(g) == "a" && StartedPath(h) == "b"
    ensures !ServiceMatch(f, h)
  {
    OneLetter('a');
    OneLetter('b');
  }

  lemma WitnessMatches(f: Facts, g: Facts, h: Facts, w: int)
    requires f == Facts(0, "persistence", NoStamp, None, None, map["path" := "a"])
    requires g == Facts(1, "service_modified", NoStamp, None, None, map["path" := "b", "process_path" := "a"])
    requires h == Facts(2, "program_execution", NoStamp, None, None, map["process_path" := "b"])
    ensures Takes(f, g, w) && Takes(g, h, w) && !Takes(f, h, w)
  {
    hide PathHint, StartedPath, ServiceMatch, FirstField;
    WitnessPaths(f, g, h);
    assert PathMatch(f, g) && PathMatch(g, h);
    OtherLetter('a', 'b');
    OtherLetter('b', 'a');
    assert !PathMatch(f, h);
  }

  lemma OtherLetter(c: char, d: char)
    requires c != d
    ensures !Contains([c], [d])
  {
    forall at | 0 <= at ensures !Occurs([d], [c], at) {
      if at == 0 { assert [c][0] != [d][0]; }
    }
  }

  lemma SourcesFirst(x: Snap, y: Snap, z: Snap, w: int, c: Channel, r: string)
    requires Takes(x.facts, y.facts, w) && Takes(y.facts, z.facts, w) && r in Carried(c, z.body)
    ensures r in Carried(c, Correlated([z, y, x], w)[2].body)
  {
    hide Takes, Spread, Carried;
    var L := [z, y, x];
    assert Chain(L, w, 1, 0);
    assert Chain(L, w, 2, 0);
    assert r in Carried(c, L[0].body);
    SpreadIsChains(L, w, c, 2, r);
  }

  lemma SourcesLast(x: Snap, y: Snap, z: Snap, w: int, c: Channel, r: string)
    requires !Takes(x.facts, z.facts, w) && r !in Carried(c, x.body) && r !in Carried(c, y.body)
    ensures r !in Carried(c, Correlated([x, y, z], w)[0].body)
  {
    hide Takes, Spread, Carried;
    var L := [x, y, z];
    SpreadIsChains(L, w, c, 0, r);
    assert forall k :: 0 <= k < 3 && Chain(L, w, 0, k) ==> k == 0 || k == 1;
  }

  // ---- the pass ------------------------------------------------------------

  /** The assignments for one match. */
  method TakeInPlace(persistence: Activity, candidate: Activity)
    requires persistence != candidate
    modifies persistence
    ensures persistence.View() == old(TakeFrom(persistence.View(), candidate.View()))
  {
    hide MergeLists, PathMatch;
    persistence.TakeEvidence(candidate, ["registry_correlated"]);
    persistence.reasons := MergeLists(persistence.reasons, candidate.reasons);
    persistence.confidence := MaxReal(persistence.confidence, if PathMatch(persistence.facts, candidate.facts) then 0.94
                                      else 0.9);
  }

  /** Entries before `f` have been through their inner loop. */
  ghost predicate SpreadTo(activities: seq<Activity>, L: seq<Snap>, w: int, f: nat)
    requires |L| == |activities| && f <= |L|
    reads activities
  {
    forall j: nat :: j < |L| ==> activities[j].View() == if j < f then Spread(L, w, j, |L|) else L[j]
  }

  lemma SkipNonCandidates(L: seq<Snap>, w: int, activities: seq<Activity>, items: seq<Activity>, pos: seq<nat>, i: nat,
                          k: nat, g: nat)
    requires |L| == |activities| && forall j :: 0 <= j < |L| ==> activities[j].facts == L[j].facts
    requires Selected(activities, STARTED_KINDS, items, pos) && k <= |items| && i < |L|
    requires g == if k == 0 then 0 else pos[k - 1] + 1
    ensures g <= Frontier(pos, k, |L|) <= |L|
    ensures Spread(L, w, i, Frontier(pos, k, |L|)) == Spread(L, w, i, g)
  {
    hide Matches, Spread;
    forall j | g <= j < Frontier(pos, k, |L|) ensures !Takes(L[i].facts, L[j].facts, w) {
      NothingBetween(activities, STARTED_KINDS, items, pos, k, j);
    }
    SpreadUntouched(L, w, i, g, Frontier(pos, k, |L|));
  }

  lemma SkipNonTargets(L: seq<Snap>, w: int, activities: seq<Activity>, items: seq<Activity>, pos: seq<nat>, k: nat,
                       f: nat)
    requires |L| == |activities| && forall j :: 0 <= j < |L| ==> activities[j].facts == L[j].facts
    requires Selected(activities, PERSISTENCE_KINDS, items, pos) && k <= |items|
    requires f == if k == 0 then 0 else pos[k - 1] + 1
    ensures f <= Frontier(pos, k, |L|) <= |L|
    ensures SpreadTo(activities, L, w, f) ==> SpreadTo(activities, L, w, Frontier(pos, k, |L|))
  {
    hide Matches, Spread;
    forall i | f <= i < Frontier(pos, k, |L|) ensures Spread(L, w, i, |L|) == L[i] {
      NothingBetween(activities, PERSISTENCE_KINDS, items, pos, k, i);
      SpreadUntouched(L, w, i, 0, |L|);
      SpreadStart(L, w, i);
    }
  }

  lemma SpreadStart(L: seq<Snap>, w: int, i: nat)
    requires i < |L|
    ensures Spread(L, w, i, 0) == L[i]
  {}

  lemma SpreadStep(L: seq<Snap>, w: int, i: nat, j: nat)
    requires i < |L| && j < |L|
    ensures Spread(L, w, i, j + 1) ==
      if Takes(L[i].facts, L[j].facts, w)
      then TakeFrom(Spread(L, w, i, j), if j < i then Spread(L, w, j, |L|) else L[j])
      else Spread(L, w, i, j)
  {}

  /** The inner loop for one persistence entry. */
  method TakeMatches(ghost activities: seq<Activity>, ghost L: seq<Snap>, w: int, ghost i: nat, persistence: Activity,
                     executions: seq<Activity>, ghost pos: seq<nat>)
    requires DistinctActivities(activities) && |L| == |activities| && i < |L|
    requires Selected(activities, STARTED_KINDS, executions, pos)
    requires forall j :: 0 <= j < |L| ==> activities[j].facts == L[j].facts
    requires persistence == activities[i] && L[i].facts.kind in PERSISTENCE_KINDS && SpreadTo(activities, L, w, i)
    modifies persistence
    ensures SpreadTo(activities, L, w, i + 1)
  {
    hide Matches, Spread, TakeFrom;
    SkipNonCandidates(L, w, activities, executions, pos, i, 0, 0);
    SpreadStart(L, w, i);
    for k := 0 to |executions|
      invariant persistence.View() == Spread(L, w, i, Frontier(pos, k, |L|))
    {
      var candidate := executions[k];
      ghost var j := pos[k];
      SpreadStep(L, w, i, j);
      if Matches(persistence.facts, candidate.facts, w) {
        OwnIdNeverMatches(persistence.facts, candidate.facts, w);
        assert candidate.View() == if j < i then Spread(L, w, j, |L|) else L[j];
        TakeInPlace(persistence, candidate);
      }
      SkipNonCandidates(L, w, activities, executions, pos, i, k + 1, j + 1);
    }
    assert forall j: nat :: j < |L| && j != i ==> activities[j].facts.id != persistence.facts.id;
  }

  lemma OwnIdNeverMatches(f: Facts, g: Facts, w: int)
    requires Matches(f, g, w)
    ensures f.id != g.id
  {}

  /** `correlate_registry_persistence_sources`; the list itself is returned unchanged. */
  method CorrelateRegistry(activities: seq<Activity>, window: int) returns (same: seq<Activity>)
    requires DistinctActivities(activities)
    modifies activities
    ensures same == activities
    ensures Views(same) == Correlated(old(Views(activities)), window)
  {
    hide Takes, Spread, SpreadTo;
    ghost var L := Views(activities);
    var targets, at := Select(activities, PERSISTENCE_KINDS);
    var executions, pos := Select(activities, STARTED_KINDS);
    assert SpreadTo(activities, L, window, 0) by { SpreadToStart(activities, L, window); }
    SkipNonTargets(L, window, activities, targets, at, 0, 0);
    for n := 0 to |targets|
      invariant forall j :: 0 <= j < |L| ==> activities[j].facts == L[j].facts
      invariant SpreadTo(activities, L, window, Frontier(at, n, |L|))
    {
      TakeMatches(activities, L, window, at[n], targets[n], executions, pos);
      SkipNonTargets(L, window, activities, targets, at, n + 1, at[n] + 1);
    }
    same := activities;
    SpreadToEnd(activities, L, window);
  }

  lemma SpreadToStart(activities: seq<Activity>, L: seq<Snap>, w: int)
    requires L == Views(activities)
    ensures SpreadTo(activities, L, w, 0)
  {}

  lemma SpreadToEnd(activities: seq<Activity>, L: seq<Snap>, w: int)
    requires |L| == |activities| && SpreadTo(activities, L, w, |L|)
    ensures Views(activities) == Correlated(L, w)
  {}
}
