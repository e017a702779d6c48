/** What the activities derived by a table pass are: one per recipe that applies, in order, each
    holding the evidence of its item and of the matches it uses, and pointing at those matches. */
module Derivations {
  import opened Text
  import opened Activities
  import opened Dedup
  import opened Growth
  import opened TablePasses

  function Applying(recipes: seq<Recipe>, f: Facts, found: seq<seq<Snap>>): seq<Recipe> {
    if recipes == [] then []
    else
      var last := recipes[|recipes| - 1];
      Applying(recipes[..|recipes| - 1], f, found) + if Applies(last, f, found) then [last] else []
  }

  /** The recipes of the first `k` slots that apply. */
  function Firing(slots: seq<Slot>, k: nat, f: Facts, found: seq<seq<Snap>>): seq<Recipe>
    requires k <= |slots|
  {
    if k == 0 then [] else Firing(slots, k - 1, f, found) + Applying(slots[k - 1].derive, f, found)
  }

  predicate HasMatch(found: seq<seq<Snap>>, k: nat) {
    k < |found| && found[k] != []
  }

  /** `d` is what recipe `r` makes of an item and its matches. */
  ghost predicate BuiltBy(d: Snap, r: Recipe, f: Facts, found: seq<seq<Snap>>, id: nat) {
    && d.facts == r.facts(f, HeadFacts(found)).(id := id, kind := r.kind)
    && (forall k :: k in r.uses && HasMatch(found, k) ==> Holds(d, found[k][0]))
    && (forall k :: 0 <= k < |r.links| ==> PointsAt(d.body.links, r.links[k], NamedById(r, found)))
    && (r.byEvent ==> forall k :: 0 <= k < |r.links| ==> NotesEvent(d.body.notes, r.links[k], found))
  }

  /** The key field of `m` holds the id of the first match of its slot, and nothing without one. */
  predicate PointsAt(links: map<string, nat>, m: (string, nat), found: seq<seq<Snap>>) {
    if HasMatch(found, m.1) then m.0 in links && links[m.0] == found[m.1][0].facts.id else m.0 !in links
  }

  /** The key field of `m` holds the first related event of the match if that has one. */
  predicate NotesEvent(notes: map<string, string>, m: (string, nat), found: seq<seq<Snap>>) {
    if HasMatch(found, m.1) && found[m.1][0].body.events != []
    then m.0 in notes && notes[m.0] == found[m.1][0].body.events[0] else m.0 !in notes
  }

  lemma {:induction false} PoolHolds(uses: seq<nat>, found: seq<seq<Snap>>, k: nat)
    requires k in uses && HasMatch(found, k)
    ensures Elems(found[k][0].body.refs) <= Elems(Pool(RefList, uses, found))
    ensures Elems(found[k][0].body.events) <= Elems(Pool(EventList, uses, found))
  {
    if uses[0] != k { PoolHolds(uses[1..], found, k); }
  }

  ghost predicate DistinctNames(links: seq<(string, nat)>) {
    forall j, k :: 0 <= j < k < |links| ==> links[j].0 != links[k].0
  }

  lemma {:induction false} LinksPoint(links: map<string, nat>, names: seq<(string, nat)>, found: seq<seq<Snap>>, k: nat)
    requires DistinctNames(names) && k < |names|
    ensures PointsAt(LinkTo(links, names, found), names[k], found)
  {
    if k > 0 {
      LinksPoint(links, names[1..], found, k - 1);
      assert names[0].0 != names[k].0;
    }
  }

  lemma {:induction false} NotesPoint(notes: map<string, string>, names: seq<(string, nat)>, found: seq<seq<Snap>>,
                                      k: nat)
    requires DistinctNames(names) && k < |names|
    ensures NotesEvent(EventNotes(notes, names, found), names[k], found)
  {
    if k > 0 {
      NotesPoint(notes, names[1..], found, k - 1);
      assert names[0].0 != names[k].0;
    }
  }

  lemma DerivedIsBuilt(r: Recipe, x: Snap, found: seq<seq<Snap>>, id: nat)
    requires DistinctNames(r.links)
    ensures BuiltBy(Derived(r, x, found, id), r, x.facts, found, id)
    ensures Holds(Derived(r, x, found, id), x)
  {
    hide SortedSet, LinkTo, Pool, PointsAt, NotesEvent, EventNotes, NamedById;
    var d := Derived(r, x, found, id);
    forall k | k in r.uses && HasMatch(found, k) ensures Holds(d, found[k][0]) { PoolHolds(r.uses, found, k); }
    forall k | 0 <= k < |r.links| ensures PointsAt(d.body.links, r.links[k], NamedById(r, found)) {
      LinksPoint(x.body.links, r.links, NamedById(r, found), k);
    }
    forall k | 0 <= k < |r.links| && r.byEvent ensures NotesEvent(d.body.notes, r.links[k], found) {
      NotesPoint(x.body.notes, r.links, found, k);
    }
  }

  ghost predicate Distinct(recipes: seq<Recipe>) {
    forall r :: r in recipes ==> DistinctNames(r.links)
  }

  lemma {:induction false} DerivedByIsBuilt(recipes: seq<Recipe>, x: Snap, found: seq<seq<Snap>>, base: nat)
    requires Distinct(recipes)
    ensures var news, fired := DerivedBy(recipes, x, found, base), Applying(recipes, x.facts, found);
      |news| == |fired| && forall n :: 0 <= n < |news| ==>
        BuiltBy(news[n], fired[n], x.facts, found, base + n) && Holds(news[n], x)
  {
    hide Derived, BuiltBy, DistinctNames, Applies;
    if recipes != [] {
      var front := recipes[..|recipes| - 1];
      DerivedByIsBuilt(front, x, found, base);
      assert recipes[|recipes| - 1] in recipes;
      DerivedIsBuilt(recipes[|recipes| - 1], x, found, base + |DerivedBy(front, x, found, base)|);
    }
  }

  lemma {:induction false} EnrichAllHolds(s: Slot, x: Snap, found: seq<Snap>)
    ensures Holds(EnrichAll(s, x, found), x) && EnrichAll(s, x, found).facts == x.facts
  {
    hide SortedSet;
    if found != [] { EnrichAllHolds(s, x, found[..|found| - 1]); }
  }

  lemma {:induction false} SlotsAreBuilt(slots: seq<Slot>, k: nat, x: Snap, found: seq<seq<Snap>>, base: nat)
    requires k <= |slots| == |found| && forall j :: 0 <= j < k ==> Distinct(slots[j].derive)
    ensures var o, fired := AfterSlots(slots, k, x, found, base), Firing(slots, k, x.facts, found);
      && o.item.facts == x.facts && Holds(o.item, x)
      && |o.derived| == |fired|
      && forall n :: 0 <= n < |fired| ==>
           BuiltBy(o.derived[n], fired[n], x.facts, found, base + n) && Holds(o.derived[n], x)
  {
    hide EnrichAll, DerivedBy, Applying, BuiltBy, Distinct;
    if k > 0 {
      SlotsAreBuilt(slots, k - 1, x, found, base);
      var o := AfterSlots(slots, k - 1, x, found, base);
      EnrichAllHolds(slots[k - 1], o.item, found[k - 1]);
      DerivedByIsBuilt(slots[k - 1].derive, EnrichAll(slots[k - 1], o.item, found[k - 1]), found, base + |o.derived|);
    }
  }

  /** Every derived activity of an item is built by one applying recipe, in recipe order. */
  lemma DerivedInOrder(p: Pass, L: seq<Snap>, i: nat, base: nat)
    requires i < |L| && p.selects(L[i].facts) && forall j :: 0 <= j < |p.slots| ==> Distinct(p.slots[j].derive)
    ensures var f := L[i].facts;
      var found, derived := Matched(p, f, L), ItemOutcome(p, L, i, base).derived;
      var fired := Firing(p.slots, |p.slots|, f, found);
      && |derived| == |fired|
      && forall n :: 0 <= n < |derived| ==> BuiltBy(derived[n], fired[n], f, found, base + n) && Holds(derived[n], L[i])
  {
    hide AfterSlots, Firing, BuiltBy, Distinct, Matched;
    SlotsAreBuilt(p.slots, |p.slots|, L[i], Matched(p, L[i].facts, L), base);
  }

  /** Only recipes of the slots that apply are fired. */
  lemma {:induction false} FiringApplies(slots: seq<Slot>, k: nat, f: Facts, found: seq<seq<Snap>>, r: Recipe)
    requires k <= |slots| && r in Firing(slots, k, f, found)
    ensures Applies(r, f, found) && exists j :: 0 <= j < k && r in slots[j].derive
  {
    hide Applies;
    if r in Firing(slots, k - 1, f, found) {
      FiringApplies(slots, k - 1, f, found, r);
    } else {
      ApplyingApplies(slots[k - 1].derive, f, found, r);
    }
  }

  lemma {:induction false} ApplyingApplies(recipes: seq<Recipe>, f: Facts, found: seq<seq<Snap>>, r: Recipe)
    requires r in Applying(recipes, f, found)
    ensures r in recipes && Applies(r, f, found)
  {
    hide Applies;
    if r in Applying(recipes[..|recipes| - 1], f, found) { ApplyingApplies(recipes[..|recipes| - 1], f, found, r); }
  }

  // ---- kinds and cross-references of what is derived ------------------------------------

  /** The kind of a derived activity and the key fields by which it names matches. */
  datatype Sign = Sign(kind: string, links: seq<(string, nat)>)

  function Signs(recipes: seq<Recipe>): seq<Sign> {
    seq(|recipes|, k requires 0 <= k < |recipes| => Sign(recipes[k].kind, recipes[k].links))
  }

  function If(c: bool, sign: Sign): seq<Sign> {
    if c then [sign] else []
  }

  /** The derived activities have these kinds, in this order, and name these matches. */
  ghost predicate Yields(derived: seq<Snap>, signs: seq<Sign>, found: seq<seq<Snap>>, base: nat) {
    && |derived| == |signs|
    && forall n :: 0 <= n < |derived| ==>
         && derived[n].facts.kind == signs[n].kind && derived[n].facts.id == base + n
         && forall k :: 0 <= k < |signs[n].links| ==> PointsAt(derived[n].body.links, signs[n].links[k], found)
  }

  /** What the slots of a pass contribute, one after the other. */
  function SignsUpTo(slots: seq<Slot>, k: nat, f: Facts, found: seq<seq<Snap>>): seq<Sign>
    requires k <= |slots|
  {
    if k == 0 then [] else SignsUpTo(slots, k - 1, f, found) + Signs(Applying(slots[k - 1].derive, f, found))
  }

  lemma SignsConcat(a: seq<Recipe>, b: seq<Recipe>)
    ensures Signs(a + b) == Signs(a) + Signs(b)
  {}

  lemma {:induction false} SignsAreFired(slots: seq<Slot>, k: nat, f: Facts, found: seq<seq<Snap>>)
    requires k <= |slots|
    ensures Signs(Firing(slots, k, f, found)) == SignsUpTo(slots, k, f, found)
  {
    hide Applying, Signs;
    if k > 0 {
      SignsAreFired(slots, k - 1, f, found);
      SignsConcat(Firing(slots, k - 1, f, found), Applying(slots[k - 1].derive, f, found));
    } else {
      NoSigns();
    }
  }

  lemma NoSigns()
    ensures Signs([]) == []
  {}

  /** The recipes of a pass name their matches by id, each under different key fields. */
  ghost predicate NamesById(slots: seq<Slot>) {
    forall j, r :: 0 <= j < |slots| && r in slots[j].derive ==> !r.byEvent && DistinctNames(r.links)
  }

  lemma PassYields(p: Pass, L: seq<Snap>, i: nat, base: nat)
    requires i < |L| && p.selects(L[i].facts) && NamesById(p.slots)
    ensures var f := L[i].facts;
      var found := Matched(p, f, L);
      Yields(ItemOutcome(p, L, i, base).derived, SignsUpTo(p.slots, |p.slots|, f, found), found, base)
  {
    hide ItemOutcome, Matched, Firing, BuiltBy, DistinctNames, PointsAt, SignsUpTo;
    var f := L[i].facts;
    var found, derived := Matched(p, f, L), ItemOutcome(p, L, i, base).derived;
    var fired := Firing(p.slots, |p.slots|, f, found);
    DerivedInOrder(p, L, i, base);
    SignsAreFired(p.slots, |p.slots|, f, found);
    forall n | 0 <= n < |derived|
      ensures derived[n].facts.kind == fired[n].kind && derived[n].facts.id == base + n
      ensures forall k :: 0 <= k < |fired[n].links| ==> PointsAt(derived[n].body.links, fired[n].links[k], found)
    {
      FiringApplies(p.slots, |p.slots|, f, found, fired[n]);
      BuiltNames(derived[n], fired[n], f, found, base + n);
    }
  }

  lemma BuiltNames(d: Snap, r: Recipe, f: Facts, found: seq<seq<Snap>>, id: nat)
    requires BuiltBy(d, r, f, found, id) && !r.byEvent
    ensures d.facts.kind == r.kind && d.facts.id == id
    ensures forall k :: 0 <= k < |r.links| ==> PointsAt(d.body.links, r.links[k], found)
  {
    hide PointsAt;
  }

  lemma ApplyingOne(r: Recipe, f: Facts, found: seq<seq<Snap>>)
    ensures Applying([r], f, found) == if Applies(r, f, found) then [r] else []
  {
    hide Applies;
    assert [r][..0] == [];
    assert Applying([r][..0], f, found) == [];
  }

  lemma NoneApplying(f: Facts, found: seq<seq<Snap>>)
    ensures Signs(Applying([], f, found)) == []
  {}

  /** A recipe that needs the match of one slot. */
  lemma OneSign(r: Recipe, f: Facts, found: seq<seq<Snap>>, slot: nat)
    requires r.needs == [slot]
    ensures Signs(Applying([r], f, found)) == If(r.when(f) && HasMatch(found, slot), Sign(r.kind, r.links))
  {
    ApplyingOne(r, f, found);
    assert slot in r.needs && forall k :: k in r.needs ==> k == slot;
    assert Applies(r, f, found) <==> r.when(f) && HasMatch(found, slot);
  }

  /** A recipe that needs no match. */
  lemma FreeSign(r: Recipe, f: Facts, found: seq<seq<Snap>>)
    requires r.needs == []
    ensures Signs(Applying([r], f, found)) == If(r.when(f), Sign(r.kind, r.links))
  {
    ApplyingOne(r, f, found);
  }

  lemma ThreeSigns(a: Recipe, b: Recipe, c: Recipe, f: Facts, found: seq<seq<Snap>>)
    ensures Signs(Applying([a, b, c], f, found)) ==
      Signs(Applying([a], f, found)) + Signs(Applying([b], f, found)) + Signs(Applying([c], f, found))
  {
    hide Applies, Signs;
    ApplyingOne(a, f, found);
    ApplyingOne(b, f, found);
    ApplyingOne(c, f, found);
    assert [a, b][..1] == [a] && [a, b, c][..2] == [a, b];
    var one, two, three := Applying([a], f, found), Applying([b], f, found), Applying([c], f, found);
    assert Applying([a, b], f, found) == one + two;
    assert Applying([a, b, c], f, found) == one + two + three;
    SignsConcat(one, two);
    SignsConcat(one + two, three);
  }

  // ---- which match a slot finds -----------------------------------------------------------

  predicate Hits(s: Slot, f: Facts, y: Snap) {
    s.from(y.facts) && s.matches(f, y)
  }

  /** A slot that stops at its first match finds the first hit in list order. */
  lemma {:induction false} FirstFound(s: Slot, f: Facts, L: seq<Snap>, n: nat)
    requires n <= |L| && s.mode.First?
    ensures FoundUpTo(s, f, L, n) == [] <==> forall j :: 0 <= j < n ==> !Hits(s, f, L[j])
    ensures FoundUpTo(s, f, L, n) != [] ==>
      exists j :: 0 <= j < n && FoundUpTo(s, f, L, n) == [L[j]] && Hits(s, f, L[j])
        && (forall k :: 0 <= k < j ==> !Hits(s, f, L[k]))
  {
    if n > 0 { FirstFound(s, f, L, n - 1); }
  }

  /** A slot that looks among entries of the given kinds for the first match. */
  ghost predicate SlotIs(s: Slot, kinds: set<string>, matches: (Facts, Facts) -> bool, derive: seq<Recipe>) {
    && s.mode.First? && s.unless.None? && s.link.None? && s.derive == derive
    && (forall f: Facts :: s.from(f) <==> f.kind in kinds)
    && (forall f: Facts, y: Snap :: s.matches(f, y) <==> matches(f, y.facts))
  }

  /** Entry `j` is of one of these kinds and matches. */
  predicate Meets(L: seq<Snap>, j: nat, kinds: set<string>, f: Facts, matches: (Facts, Facts) -> bool)
    requires j < |L|
  {
    L[j].facts.kind in kinds && matches(f, L[j].facts)
  }

  /** `found` holds the first entry of these kinds that matches, if there is one. */
  ghost predicate FirstOf(found: seq<Snap>, L: seq<Snap>, kinds: set<string>, f: Facts,
                          matches: (Facts, Facts) -> bool) {
    if found == [] then forall j: nat :: j < |L| ==> !Meets(L, j, kinds, f, matches)
    else exists j: nat :: j < |L| && found == [L[j]] && Meets(L, j, kinds, f, matches)
           && forall k: nat :: k < j ==> !Meets(L, k, kinds, f, matches)
  }

  lemma SlotFinds(p: Pass, f: Facts, L: seq<Snap>, k: nat, kinds: set<string>, matches: (Facts, Facts) -> bool,
                  derive: seq<Recipe>)
    requires p.finder.Scan? && k < |p.slots| && SlotIs(p.slots[k], kinds, matches, derive)
    ensures FirstOf(Matched(p, f, L)[k], L, kinds, f, matches)
  {
    hide FoundUpTo;
    var s := p.slots[k];
    FirstFound(s, f, L, |L|);
    assert forall j: nat :: j < |L| ==> Hits(s, f, L[j]) == Meets(L, j, kinds, f, matches);
    var found := FoundUpTo(s, f, L, |L|);
    if found != [] {
      var j :| 0 <= j < |L| && found == [L[j]] && Hits(s, f, L[j]) && (forall k :: 0 <= k < j ==> !Hits(s, f, L[k]));
      assert Meets(L, j, kinds, f, matches);
    }
  }

  /** Whatever a slot of this pass finds is on the item's host, as far as both hosts are known. */
  ghost predicate RespectsHosts(p: Pass) {
    forall k, f: Facts, y: Snap :: 0 <= k < |p.slots| && p.slots[k].matches(f, y) ==> HostsAgree(f, y.facts)
  }

  function SignsAt(slots: seq<Slot>, k: nat, f: Facts, found: seq<seq<Snap>>): seq<Sign>
    requires k < |slots|
  {
    Signs(Applying(slots[k].derive, f, found))
  }

  /** The contributions of all slots of a short list. */
  lemma Unrolled(s: seq<Slot>, f: Facts, found: seq<seq<Snap>>)
    requires 3 <= |s| <= 6
    ensures var three := SignsAt(s, 0, f, found) + SignsAt(s, 1, f, found) + SignsAt(s, 2, f, found);
      && (|s| == 3 ==> SignsUpTo(s, 3, f, found) == three)
      && (|s| == 4 ==> SignsUpTo(s, 4, f, found) == three + SignsAt(s, 3, f, found))
      && (|s| == 5 ==> SignsUpTo(s, 5, f, found) == three + SignsAt(s, 3, f, found) + SignsAt(s, 4, f, found))
      && (|s| == 6 ==>
            SignsUpTo(s, 6, f, found) ==
              three + SignsAt(s, 3, f, found) + SignsAt(s, 4, f, found) + SignsAt(s, 5, f, found))
  {
    hide Applying, Signs;
    assert SignsUpTo(s, 1, f, found) == SignsAt(s, 0, f, found);
    assert SignsUpTo(s, 2, f, found) == SignsUpTo(s, 1, f, found) + SignsAt(s, 1, f, found);
    assert SignsUpTo(s, 3, f, found) == SignsUpTo(s, 2, f, found) + SignsAt(s, 2, f, found);
    if |s| > 3 { assert SignsUpTo(s, 4, f, found) == SignsUpTo(s, 3, f, found) + SignsAt(s, 3, f, found); }
    if |s| > 4 { assert SignsUpTo(s, 5, f, found) == SignsUpTo(s, 4, f, found) + SignsAt(s, 4, f, found); }
    if |s| > 5 { assert SignsUpTo(s, 6, f, found) == SignsUpTo(s, 5, f, found) + SignsAt(s, 5, f, found); }
  }
}
