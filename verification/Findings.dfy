/** What a run over several passes reports: the activities of one kind in the list it ends with are
    exactly those due on the entries it started with, one each and in their order, and later passes
    leave them in place. */
module Findings {
  import opened Text
  import opened Activities
  import opened Growth
  import opened TablePasses
  import opened Derivations
  import opened Kinds

  /** The other entry of a finding: of one of these kinds and meeting the condition; the key field of
      the derived activity that names it, if any does; and what facts the activity has besides its
      id and kind, if these two entries decide that. */
  datatype Partner = Partner(among: set<string>, when: (Facts, Facts) -> bool, link: Option<string>,
                             about: Option<(Facts, Facts) -> Facts>)

  /** An activity of this kind is due on each such entry, if need be only with a partner. */
  datatype Finding = Finding(kind: string, of: Facts -> bool, partner: Option<Partner>)

  predicate Pairs(L: seq<Snap>, t: Partner, i: nat, j: nat)
    requires i < |L| && j < |L|
  {
    L[j].facts.kind in t.among && t.when(L[i].facts, L[j].facts)
  }

  ghost predicate FirstPartner(L: seq<Snap>, t: Partner, i: nat, j: nat) {
    i < |L| && j < |L| && Pairs(L, t, i, j) && forall k: nat :: k < j ==> !Pairs(L, t, i, k)
  }

  ghost predicate Due(L: seq<Snap>, d: Finding, i: nat)
    requires i < |L|
  {
    d.of(L[i].facts) && (d.partner.Some? ==> exists j: nat :: j < |L| && Pairs(L, d.partner.value, i, j))
  }

  ghost predicate Names(s: Snap, L: seq<Snap>, t: Partner, i: nat, j: nat)
    requires i < |L| && j < |L|
  {
    && Holds(s, L[j])
    && (t.about.Some? ==> SaysOnly(s, t.about.value(L[i].facts, L[j].facts)))
    && (t.link.Some? ==> t.link.value in s.body.links && s.body.links[t.link.value] == L[j].facts.id)
  }

  predicate SaysOnly(s: Snap, f: Facts) {
    s.facts == f.(id := s.facts.id, kind := s.facts.kind)
  }

  /** `s` is the activity due on entry `i`: of its host and user, with its evidence and that of its
      first partner, whom it names. */
  ghost predicate Notes(s: Snap, L: seq<Snap>, d: Finding, i: nat)
    requires i < |L|
  {
    && s.facts.kind == d.kind && s.facts.host == L[i].facts.host && s.facts.user == L[i].facts.user
    && Holds(s, L[i]) && (d.partner.None? ==> SaysOnly(s, L[i].facts))
    && (d.partner.Some? ==>
          exists j: nat :: FirstPartner(L, d.partner.value, i, j) && Names(s, L, d.partner.value, i, j))
  }

  /** The activities of the kind in `F[from..]` are those due on `L[..n]`, that of entry `i` being
      `F[at[i]]`. */
  ghost predicate Tells(F: seq<Snap>, from: nat, L: seq<Snap>, n: nat, d: Finding, at: map<nat, nat>) {
    && n <= |L|
    && (forall i: nat :: i in at <==> i < n && Due(L, d, i))
    && (forall i: nat :: i in at ==> from <= at[i] < |F| && Notes(F[at[i]], L, d, i))
    && (forall i: nat, k: nat :: i in at && k in at && i < k ==> at[i] < at[k])
    && forall q: nat :: from <= q < |F| && F[q].facts.kind == d.kind ==> exists i: nat :: i in at && at[i] == q
  }

  // ---- one item ----------------------------------------------------------------------------

  ghost predicate AtMostOnce(recipes: seq<Recipe>, kind: string) {
    forall a, b :: 0 <= a < b < |recipes| && recipes[a].kind == kind ==> recipes[b].kind != kind
  }

  /** At most one of the recipes has the kind of `r`, and that is `r`. */
  ghost predicate OnlyIn(recipes: seq<Recipe>, r: Recipe) {
    AtMostOnce(recipes, r.kind) && forall x :: x in recipes && x.kind == r.kind ==> x == r
  }

  /** `m` is the place of `r` in the list, and nothing else there has its kind. */
  ghost predicate Placed(fired: seq<Recipe>, r: Recipe, m: Option<nat>) {
    && (m.Some? ==> m.value < |fired| && fired[m.value] == r)
    && forall n: nat :: n < |fired| && fired[n].kind == r.kind ==> m == Some(n)
  }

  lemma {:induction false} ApplyingOnce(recipes: seq<Recipe>, r: Recipe, f: Facts, found: seq<seq<Snap>>)
    returns (m: Option<nat>)
    requires OnlyIn(recipes, r)
    ensures Placed(Applying(recipes, f, found), r, m)
    ensures m.Some? <==> r in recipes && Applies(r, f, found)
  {
    hide Applies;
    if recipes == [] { return None; }
    var front, last := recipes[..|recipes| - 1], recipes[|recipes| - 1];
    assert recipes == front + [last];
    m := ApplyingOnce(front, r, f, found);
    if last == r {
      assert r !in front;
      if Applies(r, f, found) { m := Some(|Applying(front, f, found)|); }
    } else {
      assert last.kind != r.kind;
    }
  }

  lemma {:induction false} FiringOnce(slots: seq<Slot>, k: nat, s: nat, r: Recipe, f: Facts, found: seq<seq<Snap>>)
    returns (m: Option<nat>)
    requires k <= |slots| && s < |slots| && OnlyIn(slots[s].derive, r) && r in slots[s].derive
    requires forall j, x :: 0 <= j < |slots| && j != s && x in slots[j].derive ==> x.kind != r.kind
    ensures Placed(Firing(slots, k, f, found), r, m)
    ensures m.Some? <==> s < k && Applies(r, f, found)
  {
    hide Applies, Applying, OnlyIn;
    if k == 0 { return None; }
    m := FiringOnce(slots, k - 1, s, r, f, found);
    var before, more := Firing(slots, k - 1, f, found), Applying(slots[k - 1].derive, f, found);
    if k - 1 == s {
      var n := ApplyingOnce(slots[s].derive, r, f, found);
      m := if n.Some? then Some(|before| + n.value) else None;
    } else {
      forall x | x in more ensures x.kind != r.kind { ApplyingApplies(slots[k - 1].derive, f, found, x); }
    }
  }

  /** Each recipe names its matches under different key fields. */
  ghost predicate AllNamed(slots: seq<Slot>) {
    forall k :: 0 <= k < |slots| ==> Distinct(slots[k].derive)
  }

  /** Recipe `r` of slot `s` makes this finding. */
  ghost predicate Derives(p: Pass, d: Finding, s: nat, r: Recipe) {
    && p.finder.Scan? && s < |p.slots| && AllNamed(p.slots)
    && r in p.slots[s].derive && r.kind == d.kind
    && (forall f: Facts :: p.selects(f) && r.when(f) <==> d.of(f))
    && KeepsOwner(r)
    && if d.partner.Some? then FindsPartner(p, d.partner.value, s, r) else r.needs == [] && Repeats(r)
  }

  /** The pass makes this finding by that recipe and in no other way. */
  ghost predicate Reports(p: Pass, d: Finding, s: nat, r: Recipe) {
    && Derives(p, d, s, r) && OnlyIn(p.slots[s].derive, r)
    && forall j, x :: 0 <= j < |p.slots| && j != s && x in p.slots[j].derive ==> x.kind != r.kind
  }

  /** What a recipe makes of an item has its host and user. */
  ghost predicate KeepsOwner(r: Recipe) {
    forall f: Facts, heads: seq<Option<Facts>> ::
      r.facts(f, heads).host == f.host && r.facts(f, heads).user == f.user
  }

  /** What the recipe makes of an item and the match of its slot. */
  ghost predicate MakesOf(r: Recipe, s: nat, about: (Facts, Facts) -> Facts) {
    forall f: Facts, heads: seq<Option<Facts>> ::
      s < |heads| && heads[s].Some? ==> r.facts(f, heads) == about(f, heads[s].value)
  }

  ghost predicate Repeats(r: Recipe) {
    forall f: Facts, heads: seq<Option<Facts>> :: r.facts(f, heads) == f
  }

  ghost predicate FindsPartner(p: Pass, t: Partner, s: nat, r: Recipe)
    requires s < |p.slots|
  {
    && r.needs == [s] && s in r.uses && (t.link.Some? ==> !r.byEvent && (t.link.value, s) in r.links)
    && (t.about.Some? ==> MakesOf(r, s, t.about.value))
    && p.slots[s].mode.First? && p.slots[s].unless.None?
    && (forall f: Facts :: p.slots[s].from(f) <==> f.kind in t.among)
    && (forall f: Facts, y: Snap :: p.selects(f) ==> (p.slots[s].matches(f, y) <==> t.when(f, y.facts)))
  }

  /** The slot of a finding holds its first partner. */
  lemma PartnerFound(p: Pass, t: Partner, s: nat, r: Recipe, L: seq<Snap>, i: nat)
    requires p.finder.Scan? && s < |p.slots| && FindsPartner(p, t, s, r) && i < |L| && p.selects(L[i].facts)
    ensures var found := Matched(p, L[i].facts, L);
      && (HasMatch(found, s) <==> exists j: nat :: j < |L| && Pairs(L, t, i, j))
      && (HasMatch(found, s) ==> exists j: nat :: FirstPartner(L, t, i, j) && found[s] == [L[j]])
  {
    hide FoundUpTo;
    var slot, f := p.slots[s], L[i].facts;
    FirstFound(slot, f, L, |L|);
    forall j: nat | j < |L| ensures Hits(slot, f, L[j]) <==> Pairs(L, t, i, j) {}
    if FoundUpTo(slot, f, L, |L|) != [] {
      var j :| 0 <= j < |L| && FoundUpTo(slot, f, L, |L|) == [L[j]] && Hits(slot, f, L[j])
        && (forall k :: 0 <= k < j ==> !Hits(slot, f, L[k]));
      assert FirstPartner(L, t, i, j);
    }
  }

  /** The recipe of a finding applies to an item exactly when the finding is due. */
  lemma AppliesWhenDue(p: Pass, d: Finding, s: nat, r: Recipe, L: seq<Snap>, i: nat)
    requires Derives(p, d, s, r) && i < |L| && p.selects(L[i].facts)
    ensures Applies(r, L[i].facts, Matched(p, L[i].facts, L)) <==> Due(L, d, i)
  {
    hide Matched, KeepsOwner, OnlyIn, AllNamed, Pairs;
    var f := L[i].facts;
    assert p.selects(f) && r.when(f) <==> d.of(f);
    if d.partner.Some? {
      assert s in r.needs && forall k :: k in r.needs ==> k == s;
      PartnerFound(p, d.partner.value, s, r, L, i);
    }
  }

  lemma BuiltNotes(p: Pass, d: Finding, s: nat, r: Recipe, L: seq<Snap>, i: nat, x: Snap, id: nat)
    requires Derives(p, d, s, r) && i < |L| && p.selects(L[i].facts) && Due(L, d, i)
    requires BuiltBy(x, r, L[i].facts, Matched(p, L[i].facts, L), id) && Holds(x, L[i])
    ensures Notes(x, L, d, i)
  {
    hide Matched, OnlyIn, Pairs, Holds, NotesEvent;
    var found := Matched(p, L[i].facts, L);
    OwnerKept(r, L[i].facts, HeadFacts(found));
    if d.partner.None? { assert r.facts(L[i].facts, HeadFacts(found)) == L[i].facts; }
    if d.partner.Some? {
      var t := d.partner.value;
      PartnerFound(p, t, s, r, L, i);
      var j: nat :| FirstPartner(L, t, i, j) && found[s] == [L[j]];
      assert Holds(x, L[j]);
      var heads := HeadFacts(found);
      assert heads[s] == Some(L[j].facts);
      if t.about.Some? { assert r.facts(L[i].facts, heads) == t.about.value(L[i].facts, L[j].facts); }
      if t.link.Some? {
        var k :| 0 <= k < |r.links| && r.links[k] == (t.link.value, s);
        assert PointsAt(x.body.links, r.links[k], found);
      }
      assert Names(x, L, t, i, j);
    }
  }

  lemma OwnerKept(r: Recipe, f: Facts, heads: seq<Option<Facts>>)
    requires KeepsOwner(r)
    ensures r.facts(f, heads).host == f.host && r.facts(f, heads).user == f.user
  {}

  /** An item yields one activity of the kind if the finding is due on it and none if not. */
  lemma ItemTells(p: Pass, d: Finding, s: nat, r: Recipe, L: seq<Snap>, i: nat, base: nat) returns (m: Option<nat>)
    requires Reports(p, d, s, r) && i < |L|
    ensures var D := ItemOutcome(p, L, i, base).derived;
      && (m.Some? <==> Due(L, d, i))
      && (m.Some? ==> m.value < |D| && Notes(D[m.value], L, d, i))
      && forall n: nat :: n < |D| && D[n].facts.kind == d.kind ==> m == Some(n)
  {
    hide Matched, BuiltBy, OnlyIn, Applies, Firing, Due, AfterSlots, KeepsOwner, Holds, FindsPartner, DistinctNames,
      Notes;
    var f := L[i].facts;
    if !p.selects(f) {
      NotAnItem(p, d, s, r, L, i);
      return None;
    }
    var found, D := Matched(p, f, L), ItemOutcome(p, L, i, base).derived;
    m := FiringOnce(p.slots, |p.slots|, s, r, f, found);
    AppliesWhenDue(p, d, s, r, L, i);
    DerivedInOrder(p, L, i, base);
    var fired := Firing(p.slots, |p.slots|, f, found);
    forall n: nat | n < |D| ensures D[n].facts.kind == fired[n].kind { BuiltKind(D[n], fired[n], f, found, base + n); }
    if m.Some? { BuiltNotes(p, d, s, r, L, i, D[m.value], base + m.value); }
  }

  lemma BuiltKind(x: Snap, r: Recipe, f: Facts, found: seq<seq<Snap>>, id: nat)
    requires BuiltBy(x, r, f, found, id)
    ensures x.facts.kind == r.kind
  {}

  lemma NotAnItem(p: Pass, d: Finding, s: nat, r: Recipe, L: seq<Snap>, i: nat)
    requires Derives(p, d, s, r) && i < |L| && !p.selects(L[i].facts)
    ensures !Due(L, d, i)
  {
    hide FindsPartner, KeepsOwner, OnlyIn, AllNamed;
    var f := L[i].facts;
    assert p.selects(f) && r.when(f) <==> d.of(f);
  }

  lemma {:induction false} FiringHas(slots: seq<Slot>, k: nat, s: nat, r: Recipe, f: Facts, found: seq<seq<Snap>>)
    requires s < k <= |slots| && r in slots[s].derive && Applies(r, f, found)
    ensures r in Firing(slots, k, f, found)
  {
    hide Applies, Applying;
    if s < k - 1 { FiringHas(slots, k - 1, s, r, f, found); } else { ApplyingHas(slots[s].derive, r, f, found); }
  }

  lemma {:induction false} ApplyingHas(recipes: seq<Recipe>, r: Recipe, f: Facts, found: seq<seq<Snap>>)
    requires r in recipes && Applies(r, f, found)
    ensures r in Applying(recipes, f, found)
  {
    hide Applies;
    var front, last := recipes[..|recipes| - 1], recipes[|recipes| - 1];
    assert recipes == front + [last];
    if r != last { ApplyingHas(front, r, f, found); }
  }

  /** What is due on an item is among what it yields. */
  lemma ItemNotes(p: Pass, d: Finding, s: nat, r: Recipe, L: seq<Snap>, i: nat, base: nat) returns (x: Snap)
    requires Derives(p, d, s, r) && i < |L| && Due(L, d, i)
    ensures x in ItemOutcome(p, L, i, base).derived && Notes(x, L, d, i)
  {
    hide Matched, BuiltBy, Applies, Firing, AfterSlots, KeepsOwner, Holds, FindsPartner, DistinctNames, Notes;
    var f := L[i].facts;
    var found, D := Matched(p, f, L), ItemOutcome(p, L, i, base).derived;
    assert p.selects(f) && r.when(f) <==> d.of(f);
    AppliesWhenDue(p, d, s, r, L, i);
    FiringHas(p.slots, |p.slots|, s, r, f, found);
    DerivedInOrder(p, L, i, base);
    var fired := Firing(p.slots, |p.slots|, f, found);
    var n :| 0 <= n < |fired| && fired[n] == r;
    x := D[n];
    BuiltNotes(p, d, s, r, L, i, x, base + n);
  }

  lemma {:induction false} NewHas(p: Pass, L: seq<Snap>, n: nat, base: nat, i: nat, x: Snap)
    requires i < n <= |L| && x in ItemOutcome(p, L, i, base + |NewUpTo(p, L, i, base)|).derived
    ensures x in NewUpTo(p, L, n, base)
  {
    hide ItemOutcome;
    if i < n - 1 { NewHas(p, L, n - 1, base, i, x); }
  }

  /** What a pass derives tells the finding of all items it has gone through. */
  lemma {:induction false} NewTells(p: Pass, d: Finding, s: nat, r: Recipe, L: seq<Snap>, n: nat, base: nat)
    returns (at: map<nat, nat>)
    requires Reports(p, d, s, r) && n <= |L|
    ensures Tells(NewUpTo(p, L, n, base), 0, L, n, d, at)
  {
    hide Reports, ItemOutcome, Notes, Due;
    if n == 0 { return map[]; }
    at := NewTells(p, d, s, r, L, n - 1, base);
    var before := NewUpTo(p, L, n - 1, base);
    var m := ItemTells(p, d, s, r, L, n - 1, base + |before|);
    var more := ItemOutcome(p, L, n - 1, base + |before|).derived;
    TellsMore(before, more, L, n - 1, d, at, m);
    if m.Some? { at := at[n - 1 := |before| + m.value]; }
  }

  lemma TellsMore(before: seq<Snap>, more: seq<Snap>, L: seq<Snap>, n: nat, d: Finding, at: map<nat, nat>,
                  m: Option<nat>)
    requires n < |L| && Tells(before, 0, L, n, d, at)
    requires m.Some? <==> Due(L, d, n)
    requires m.Some? ==> m.value < |more| && Notes(more[m.value], L, d, n)
    requires forall q: nat :: q < |more| && more[q].facts.kind == d.kind ==> m == Some(q)
    ensures Tells(before + more, 0, L, n + 1, d, if m.Some? then at[n := |before| + m.value] else at)
  {
    hide Notes, Due;
    var F, to := before + more, if m.Some? then at[n := |before| + m.value] else at;
    forall q: nat | q < |F| && F[q].facts.kind == d.kind ensures exists i: nat :: i in to && to[i] == q {
      if q < |before| {
        assert before[q].facts.kind == d.kind;
        var i: nat :| i in at && at[i] == q;
        assert i in to && to[i] == q;
      } else {
        assert more[q - |before|].facts.kind == d.kind;
        assert n in to && to[n] == q;
      }
    }
  }

  // ---- what an item takes from its partner ----------------------------------------------------

  lemma EnrichTakes(s: Slot, x: Snap, y: Snap)
    ensures Holds(Enrich(s, x, y), y) && Holds(Enrich(s, x, y), x)
  {
    hide SortedSet;
  }

  lemma {:induction false} EnrichAllTakes(s: Slot, x: Snap, found: seq<Snap>, y: Snap)
    requires y in found
    ensures Holds(EnrichAll(s, x, found), y)
  {
    hide Enrich;
    var front, last := found[..|found| - 1], found[|found| - 1];
    assert found == front + [last];
    EnrichTakes(s, EnrichAll(s, x, front), last);
    if y != last { EnrichAllTakes(s, x, front, y); }
  }

  lemma {:induction false} SlotsTake(slots: seq<Slot>, k: nat, x: Snap, found: seq<seq<Snap>>, base: nat, s: nat,
                                     y: Snap)
    requires s < k <= |slots| == |found| && y in found[s]
    ensures Holds(AfterSlots(slots, k, x, found, base).item, y)
  {
    hide EnrichAll, DerivedBy;
    var item := AfterSlots(slots, k - 1, x, found, base).item;
    if s < k - 1 {
      SlotsTake(slots, k - 1, x, found, base, s, y);
      EnrichAllHolds(slots[k - 1], item, found[k - 1]);
    } else {
      EnrichAllTakes(slots[k - 1], item, found[k - 1], y);
    }
  }

  lemma CloseHolds(p: Pass, x: Snap, y: Snap)
    requires Holds(x, y)
    ensures Holds(Close(p, x), y)
  {}

  /** An item on which a finding is due holds its first partner's evidence after the pass. */
  lemma ItemTakes(p: Pass, d: Finding, s: nat, r: Recipe, L: seq<Snap>, i: nat) returns (j: nat)
    requires Derives(p, d, s, r) && d.partner.Some? && i < |L| && Due(L, d, i)
    ensures FirstPartner(L, d.partner.value, i, j) && Holds(ItemAfter(p, L, i), L[j])
  {
    hide Matched, AfterSlots, KeepsOwner, FindsPartner, AllNamed, Pairs, Holds;
    var f := L[i].facts;
    assert p.selects(f) && r.when(f) <==> d.of(f);
    var found := Matched(p, f, L);
    PartnerFound(p, d.partner.value, s, r, L, i);
    j :| FirstPartner(L, d.partner.value, i, j) && found[s] == [L[j]];
    SlotsTake(p.slots, |p.slots|, L[i], found, 0, s, L[j]);
    CloseHolds(p, AfterSlots(p.slots, |p.slots|, L[i], found, 0).item, L[j]);
  }

  /** The entries on which a finding is due hold the evidence of their first partners. */
  ghost predicate Shares(F: seq<Snap>, B: seq<Snap>, d: Finding) {
    forall i: nat :: i < |B| && i < |F| && Due(B, d, i) && d.partner.Some? ==>
      exists j: nat :: FirstPartner(B, d.partner.value, i, j) && Holds(F[i], B[j])
  }

  // ---- the whole run -----------------------------------------------------------------------

  /** One pass of the run: from the `n`-th entry on links stay, and what is new has this place. */
  ghost predicate Step(before: seq<Snap>, after: seq<Snap>, n: nat, place: nat) {
    && Extends(before, after)
    && (forall q: nat :: n <= q < |before| ==> after[q].body.links == before[q].body.links)
    && forall q: nat :: |before| <= q < |after| ==> Place(after[q].facts.kind) == place
  }

  /** A run of passes in the order of the places of what they derive. */
  ghost predicate Steady(lists: seq<seq<Snap>>) {
    && lists != [] && DistinctIds(lists[0]) && LinksResolve(lists[0])
    && forall k: nat :: k < |lists| - 1 ==> Step(lists[k], lists[k + 1], |lists[0]|, k + 1)
  }

  lemma {:induction false} RunExtends(lists: seq<seq<Snap>>, k: nat)
    requires Steady(lists) && k < |lists|
    ensures Extends(lists[0], lists[k]) && |lists[0]| <= |lists[k]|
  {
    hide DistinctIds, LinksResolve, Evidence, Holds;
    if k == 0 {
      ExtendsReflexive(lists[0]);
    } else {
      RunExtends(lists, k - 1);
      StepAt(lists, k - 1);
      ExtendsTransitive(lists[0], lists[k - 1], lists[k]);
    }
  }

  /** Everything added so far is of a kind with a place, and sorted by places. */
  ghost predicate InPlaces(L: seq<Snap>, n: nat, k: nat) {
    && (forall q: nat :: n <= q < |L| ==> 0 < Place(L[q].facts.kind) <= k)
    && forall q: nat, q': nat :: n <= q < q' < |L| ==> Place(L[q].facts.kind) <= Place(L[q'].facts.kind)
  }

  lemma {:induction false} RunInPlaces(lists: seq<seq<Snap>>, k: nat)
    requires Steady(lists) && k < |lists|
    ensures InPlaces(lists[k], |lists[0]|, k)
  {
    hide DistinctIds, LinksResolve, Place, Evidence, Holds;
    if k > 0 {
      RunInPlaces(lists, k - 1);
      StepAt(lists, k - 1);
    }
  }

  /** No entry that a pass added is an item of the finding or a partner. */
  ghost predicate Unplaced(d: Finding) {
    && (forall f: Facts :: d.of(f) ==> Place(f.kind) == 0)
    && (d.partner.Some? ==> forall kind :: kind in d.partner.value.among ==> Place(kind) == 0)
  }

  /** What is told of a list is told of the entries it grew from. */
  lemma TellsOrigin(F: seq<Snap>, from: nat, B: seq<Snap>, L: seq<Snap>, d: Finding, at: map<nat, nat>, k: nat)
    requires Extends(B, L) && InPlaces(L, |B|, k) && Unplaced(d) && Tells(F, from, L, |L|, d, at)
    ensures Tells(F, from, B, |B|, d, at)
  {
    hide Notes, Due, InPlaces, Unplaced, Evidence, DistinctIds, LinksResolve, Holds;
    forall i: nat | i < |B| ensures Due(B, d, i) <==> Due(L, d, i) { SameDue(B, L, d, i, k); }
    forall i: nat | |B| <= i < |L| ensures !Due(L, d, i) { NotDue(B, L, d, i, k); }
    forall i: nat | i in at ensures Notes(F[at[i]], B, d, i) { SameNotes(F[at[i]], B, L, d, i, k); }
  }

  lemma NotDue(B: seq<Snap>, L: seq<Snap>, d: Finding, i: nat, k: nat)
    requires InPlaces(L, |B|, k) && Unplaced(d) && |B| <= i < |L|
    ensures i < |L| && !Due(L, d, i)
  {
    hide Place, Pairs;
    assert 0 < Place(L[i].facts.kind);
  }

  lemma SamePairs(B: seq<Snap>, L: seq<Snap>, d: Finding, t: Partner, i: nat, j: nat, k: nat)
    requires Extends(B, L) && InPlaces(L, |B|, k) && Unplaced(d) && d.partner == Some(t) && i < |B| && j < |L|
    ensures Pairs(L, t, i, j) <==> j < |B| && Pairs(B, t, i, j)
  {
    hide Place, Evidence, Holds, DistinctIds, LinksResolve;
    if j >= |B| { assert 0 < Place(L[j].facts.kind); }
  }

  lemma SameDue(B: seq<Snap>, L: seq<Snap>, d: Finding, i: nat, k: nat)
    requires Extends(B, L) && InPlaces(L, |B|, k) && Unplaced(d) && i < |B|
    ensures Due(B, d, i) <==> Due(L, d, i)
  {
    hide InPlaces, Unplaced, Pairs, Evidence, Holds, DistinctIds, LinksResolve;
    if d.partner.Some? {
      forall j: nat | j < |L| ensures Pairs(L, d.partner.value, i, j) <==> j < |B| && Pairs(B, d.partner.value, i, j) {
        SamePairs(B, L, d, d.partner.value, i, j, k);
      }
    }
  }

  lemma SameNotes(s: Snap, B: seq<Snap>, L: seq<Snap>, d: Finding, i: nat, k: nat)
    requires Extends(B, L) && InPlaces(L, |B|, k) && Unplaced(d) && i < |B| && Notes(s, L, d, i)
    ensures Notes(s, B, d, i)
  {
    hide InPlaces, Unplaced, Pairs, Evidence, DistinctIds, LinksResolve;
    assert Holds(L[i], B[i]);
    if d.partner.Some? {
      var t := d.partner.value;
      forall j: nat | j < |L| ensures Pairs(L, t, i, j) <==> j < |B| && Pairs(B, t, i, j) {
        SamePairs(B, L, d, t, i, j, k);
      }
      var j: nat :| FirstPartner(L, t, i, j) && Names(s, L, t, i, j);
      assert FirstPartner(B, t, i, j) && Names(s, B, t, i, j);
    }
  }

  /** A pass that adds nothing of the kind leaves what is told in place. */
  lemma TellsStay(M: seq<Snap>, M': seq<Snap>, B: seq<Snap>, d: Finding, at: map<nat, nat>, place: nat)
    requires Step(M, M', |B|, place) && place != Place(d.kind) && Tells(M, |B|, B, |B|, d, at)
    ensures Tells(M', |B|, B, |B|, d, at)
  {
    hide Place, Notes, Due, Evidence, DistinctIds, LinksResolve, Holds;
    forall i: nat | i in at ensures Notes(M'[at[i]], B, d, i) {
      assert |B| <= at[i] < |M| && Notes(M[at[i]], B, d, i);
      NotesStay(M[at[i]], M'[at[i]], B, d, i);
    }
    forall q: nat | |B| <= q < |M'| && M'[q].facts.kind == d.kind ensures exists i: nat :: i in at && at[i] == q {
      assert q < |M|;
      assert M[q].facts.kind == d.kind;
    }
  }

  lemma NotesStay(s: Snap, s': Snap, B: seq<Snap>, d: Finding, i: nat)
    requires i < |B| && Notes(s, B, d, i)
    requires s'.facts == s.facts && Holds(s', s) && s'.body.links == s.body.links
    ensures Notes(s', B, d, i)
  {
    hide Pairs;
    if d.partner.Some? {
      var j: nat :| FirstPartner(B, d.partner.value, i, j) && Names(s, B, d.partner.value, i, j);
      assert Names(s', B, d.partner.value, i, j);
    }
  }

  lemma {:induction false} TellsLast(lists: seq<seq<Snap>>, a: nat, k: nat, d: Finding, at: map<nat, nat>)
    requires Steady(lists) && a < k < |lists| && Place(d.kind) == a + 1
    requires Tells(lists[a + 1], |lists[0]|, lists[0], |lists[0]|, d, at)
    ensures Tells(lists[k], |lists[0]|, lists[0], |lists[0]|, d, at)
  {
    hide Place, Tells, Step, DistinctIds, LinksResolve;
    if k > a + 1 {
      TellsLast(lists, a, k - 1, d, at);
      StepAt(lists, k - 1);
      TellsStay(lists[k - 1], lists[k], lists[0], d, at, k);
    }
  }

  // ---- a table pass as a step of the run -----------------------------------------------------

  /** Whatever the pass derives has this place. */
  ghost predicate Makes(p: Pass, place: nat) {
    AllNamed(p.slots) && forall k, r :: 0 <= k < |p.slots| && r in p.slots[k].derive ==> Place(r.kind) == place
  }

  /** The pass writes cross-references into no entry that a pass added. */
  ghost predicate KeepsLinks(p: Pass) {
    forall f: Facts, k :: 0 <= k < |p.slots| && p.selects(f) && p.slots[k].link.Some? ==> Place(f.kind) == 0
  }

  lemma {:induction false} NewPlaces(p: Pass, L: seq<Snap>, n: nat, base: nat, place: nat)
    requires n <= |L| && Makes(p, place)
    ensures forall q :: 0 <= q < |NewUpTo(p, L, n, base)| ==> Place(NewUpTo(p, L, n, base)[q].facts.kind) == place
  {
    hide Place, ItemOutcome, Distinct, BuiltBy, Matched, Firing, Holds;
    if n > 0 {
      NewPlaces(p, L, n - 1, base, place);
      var i, at := n - 1, base + |NewUpTo(p, L, n - 1, base)|;
      var D := ItemOutcome(p, L, i, at).derived;
      if p.selects(L[i].facts) {
        var f := L[i].facts;
        var found := Matched(p, f, L);
        DerivedInOrder(p, L, i, at);
        var fired := Firing(p.slots, |p.slots|, f, found);
        forall q | 0 <= q < |D| ensures Place(D[q].facts.kind) == place {
          BuiltKind(D[q], fired[q], f, found, at + q);
          FiringApplies(p.slots, |p.slots|, f, found, fired[q]);
        }
      } else {
        NoItem(p, L, i, at);
      }
    }
  }

  lemma NoItem(p: Pass, L: seq<Snap>, i: nat, base: nat)
    requires i < |L| && !p.selects(L[i].facts)
    ensures ItemOutcome(p, L, i, base) == Outcome(L[i], [])
  {}

  lemma {:induction false} EnrichKeepsLinks(s: Slot, x: Snap, found: seq<Snap>)
    requires s.link.None?
    ensures EnrichAll(s, x, found).body.links == x.body.links
  {
    if found != [] { EnrichKeepsLinks(s, x, found[..|found| - 1]); }
  }

  lemma {:induction false} SlotsKeepLinks(slots: seq<Slot>, k: nat, x: Snap, found: seq<seq<Snap>>, base: nat)
    requires k <= |slots| == |found| && forall j :: 0 <= j < |slots| ==> slots[j].link.None?
    ensures AfterSlots(slots, k, x, found, base).item.body.links == x.body.links
  {
    hide EnrichAll, DerivedBy;
    if k > 0 {
      SlotsKeepLinks(slots, k - 1, x, found, base);
      EnrichKeepsLinks(slots[k - 1], AfterSlots(slots, k - 1, x, found, base).item, found[k - 1]);
    }
  }

  lemma ItemKeepsLinks(p: Pass, L: seq<Snap>, i: nat)
    requires i < |L| && KeepsLinks(p) && Place(L[i].facts.kind) > 0
    ensures ItemAfter(p, L, i).body.links == L[i].body.links
  {
    hide AfterSlots, Place, Matched;
    var f := L[i].facts;
    if p.selects(f) {
      forall k | 0 <= k < |p.slots| ensures p.slots[k].link.None? {
        assert p.selects(f) && p.slots[k].link.Some? ==> Place(f.kind) == 0;
      }
      SlotsKeepLinks(p.slots, |p.slots|, L[i], Matched(p, f, L), 0);
    }
  }

  lemma PassSteps(p: Pass, L: seq<Snap>, base: nat, n: nat, place: nat, k: nat)
    requires DistinctIds(L) && LinksResolve(L) && forall s :: s in L ==> s.facts.id < base
    requires Makes(p, place) && KeepsLinks(p) && InPlaces(L, n, k)
    ensures Step(L, RunPass(p, L, base), n, place)
  {
    hide Place, Makes, KeepsLinks, Extends, DistinctIds, LinksResolve, NewUpTo, ItemAfter;
    PassExtends(p, L, base);
    var M, news := RunPass(p, L, base), NewUpTo(p, L, |L|, base);
    forall q: nat | n <= q < |L| ensures M[q].body.links == L[q].body.links {
      assert 0 < Place(L[q].facts.kind);
      ItemKeepsLinks(p, L, q);
    }
    NewPlaces(p, L, |L|, base, place);
    forall q: nat | |L| <= q < |M| ensures Place(M[q].facts.kind) == place { assert M[q] == news[q - |L|]; }
  }

  /** What is new in the list is what the pass derives, and its items hold what it brings them. */
  ghost predicate Adds(L: seq<Snap>, M: seq<Snap>, p: Pass, base: nat) {
    && |L| <= |M| && M[|L|..] == NewUpTo(p, L, |L|, base)
    && forall i: nat :: i < |L| ==> Holds(M[i], ItemAfter(p, L, i))
  }

  lemma PassAdds(p: Pass, L: seq<Snap>, base: nat)
    ensures Adds(L, RunPass(p, L, base), p, base)
  {
    hide NewUpTo, ItemAfter;
  }

  lemma NoneBefore(L: seq<Snap>, M: seq<Snap>, n: nat, a: nat, d: Finding)
    requires Step(L, M, n, a + 1) && InPlaces(L, n, a) && Place(d.kind) == a + 1
    ensures |L| <= |M| && forall q :: n <= q < |L| ==> M[q].facts.kind != d.kind
  {
    hide Place, Evidence, DistinctIds, LinksResolve, Holds;
  }

  lemma StepAt(lists: seq<seq<Snap>>, a: nat)
    requires Steady(lists) && a < |lists| - 1
    ensures Step(lists[a], lists[a + 1], |lists[0]|, a + 1)
  {
    hide Step;
  }

  /** The list after a pass tells the findings of that pass of the entries at the start of the run. */
  lemma StepTells(lists: seq<seq<Snap>>, a: nat, p: Pass, base: nat, d: Finding, s: nat, r: Recipe)
    returns (at: map<nat, nat>)
    requires Steady(lists) && a < |lists| - 1 && Adds(lists[a], lists[a + 1], p, base)
    requires Reports(p, d, s, r) && Place(d.kind) == a + 1 && Unplaced(d)
    ensures Tells(lists[a + 1], |lists[0]|, lists[0], |lists[0]|, d, at)
  {
    hide Place, Reports, Unplaced, Steady, NewUpTo, ItemAfter, Extends, Notes, Due;
    var B, L := lists[0], lists[a];
    var news := NewTells(p, d, s, r, L, |L|, base);
    RunExtends(lists, a);
    RunInPlaces(lists, a);
    at := map i | i in news :: |L| + news[i];
    StepAt(lists, a);
    NoneBefore(L, lists[a + 1], |B|, a, d);
    var olds := lists[a + 1][..|L|];
    assert olds + NewUpTo(p, L, |L|, base) == lists[a + 1];
    forall q | |B| <= q < |olds| ensures olds[q].facts.kind != d.kind { assert olds[q] == lists[a + 1][q]; }
    TellsShifted(olds, NewUpTo(p, L, |L|, base), L, |B|, d, news, at);
    TellsOrigin(lists[a + 1], |B|, B, L, d, at, a);
  }

  lemma TellsShifted(olds: seq<Snap>, news: seq<Snap>, L: seq<Snap>, n: nat, d: Finding, to: map<nat, nat>,
                     at: map<nat, nat>)
    requires Tells(news, 0, L, |L|, d, to) && n <= |olds|
    requires forall q :: n <= q < |olds| ==> olds[q].facts.kind != d.kind
    requires at.Keys == to.Keys && forall i :: i in to ==> at[i] == |olds| + to[i]
    ensures Tells(olds + news, n, L, |L|, d, at)
  {
    hide Place, Notes, Due;
    var M := olds + news;
    forall q: nat | n <= q < |M| && M[q].facts.kind == d.kind ensures exists i: nat :: i in at && at[i] == q {
      assert |olds| <= q;
      assert news[q - |olds|] == M[q];
      var i: nat :| i in to && to[i] == q - |olds|;
      assert at[i] == q;
    }
    forall i: nat | i in at ensures n <= at[i] < |M| && Notes(M[at[i]], L, d, i) {
      assert M[at[i]] == news[to[i]];
    }
  }

  /** The list that a run ends with tells the findings of each of its passes. */
  lemma RunTells(lists: seq<seq<Snap>>, a: nat, p: Pass, base: nat, d: Finding, s: nat, r: Recipe)
    returns (at: map<nat, nat>)
    requires Steady(lists) && a < |lists| - 1 && Adds(lists[a], lists[a + 1], p, base)
    requires Reports(p, d, s, r) && Place(d.kind) == a + 1 && Unplaced(d)
    ensures Tells(lists[|lists| - 1], |lists[0]|, lists[0], |lists[0]|, d, at)
  {
    hide Place, Reports, Unplaced, Steady, Adds, Tells;
    at := StepTells(lists, a, p, base, d, s, r);
    TellsLast(lists, a, |lists| - 1, d, at);
  }

  /** A derived activity keeps its place, its facts, its evidence and its cross-references. */
  lemma {:induction false} StaysPut(lists: seq<seq<Snap>>, a: nat, k: nat, q: nat)
    requires Steady(lists) && a <= k < |lists| && |lists[0]| <= q < |lists[a]|
    ensures |lists[a]| <= |lists[k]|
    ensures var x, y := lists[a][q], lists[k][q];
      y.facts == x.facts && Holds(y, x) && y.body.links == x.body.links
  {
    hide Place, DistinctIds, LinksResolve, Evidence;
    if a < k {
      StaysPut(lists, a, k - 1, q);
      StepAt(lists, k - 1);
    }
  }

  /** What is due on an entry of `B` is among what a pass adds to a list grown from it. */
  lemma StepNotes(B: seq<Snap>, L: seq<Snap>, M: seq<Snap>, p: Pass, base: nat, d: Finding, s: nat, r: Recipe, i: nat,
                  a: nat)
    returns (q: nat)
    requires Extends(B, L) && InPlaces(L, |B|, a) && Adds(L, M, p, base)
    requires Derives(p, d, s, r) && Unplaced(d) && i < |B| && Due(B, d, i)
    ensures |B| <= q < |M| && Notes(M[q], B, d, i)
  {
    hide Place, Derives, Unplaced, NewUpTo, Extends, Notes, Due, InPlaces, ItemOutcome;
    SameDue(B, L, d, i, a);
    SameFacts(B, L, i);
    var x := ItemNotes(p, d, s, r, L, i, base + |NewUpTo(p, L, i, base)|);
    NewHas(p, L, |L|, base, i, x);
    var m :| 0 <= m < |M[|L|..]| && M[|L|..][m] == x;
    q := |L| + m;
    SameNotes(x, B, L, d, i, a);
  }

  /** What is due on an entry is in the list that a run ends with. */
  lemma RunNotes(lists: seq<seq<Snap>>, a: nat, p: Pass, base: nat, d: Finding, s: nat, r: Recipe, i: nat)
    returns (q: nat)
    requires Steady(lists) && a < |lists| - 1 && Adds(lists[a], lists[a + 1], p, base)
    requires Derives(p, d, s, r) && Unplaced(d) && i < |lists[0]| && Due(lists[0], d, i)
    ensures |lists[0]| <= q < |lists[|lists| - 1]| && Notes(lists[|lists| - 1][q], lists[0], d, i)
  {
    hide Place, Derives, Unplaced, Steady, Adds, Extends, Notes, Due, InPlaces, Holds;
    RunExtends(lists, a);
    RunInPlaces(lists, a);
    q := StepNotes(lists[0], lists[a], lists[a + 1], p, base, d, s, r, i, a);
    StaysPut(lists, a + 1, |lists| - 1, q);
    NotesStay(lists[a + 1][q], lists[|lists| - 1][q], lists[0], d, i);
  }

  lemma SameFacts(B: seq<Snap>, L: seq<Snap>, i: nat)
    requires Extends(B, L) && i < |B|
    ensures i < |B| <= |L| && L[i].facts == B[i].facts
  {}

  lemma StepShares(B: seq<Snap>, L: seq<Snap>, M: seq<Snap>, p: Pass, base: nat, d: Finding, s: nat, r: Recipe, a: nat)
    requires Extends(B, L) && InPlaces(L, |B|, a) && Adds(L, M, p, base) && Derives(p, d, s, r) && Unplaced(d)
    ensures Shares(M, B, d)
  {
    hide Place, Derives, Unplaced, NewUpTo, Due, Pairs, InPlaces, ItemAfter, Evidence, DistinctIds, LinksResolve;
    forall i: nat | i < |B| && Due(B, d, i) && d.partner.Some?
      ensures exists j: nat :: FirstPartner(B, d.partner.value, i, j) && Holds(M[i], B[j])
    {
      var t := d.partner.value;
      SameDue(B, L, d, i, a);
      var j := ItemTakes(p, d, s, r, L, i);
      forall k: nat | k < |L| ensures Pairs(L, t, i, k)
        <==> k < |B| && Pairs(B, t, i, k) { SamePairs(B, L, d, t, i, k, a); }
      assert FirstPartner(B, t, i, j) && Holds(M[i], ItemAfter(p, L, i));
    }
  }

  /** In the list that a run ends with, entries with a finding hold their partner's evidence. */
  lemma RunShares(lists: seq<seq<Snap>>, a: nat, p: Pass, base: nat, d: Finding, s: nat, r: Recipe)
    requires Steady(lists) && a < |lists| - 1 && Adds(lists[a], lists[a + 1], p, base)
    requires Derives(p, d, s, r) && Unplaced(d)
    ensures Shares(lists[|lists| - 1], lists[0], d)
  {
    hide Place, Derives, Unplaced, Steady, Adds, InPlaces, Due, Pairs;
    RunExtends(lists, a);
    RunInPlaces(lists, a);
    StepShares(lists[0], lists[a], lists[a + 1], p, base, d, s, r, a);
    var B, M, F := lists[0], lists[a + 1], lists[|lists| - 1];
    forall i: nat | i < |B| && i < |F| && Due(B, d, i) && d.partner.Some?
      ensures exists j: nat :: FirstPartner(B, d.partner.value, i, j) && Holds(F[i], B[j])
    {
      EntryGrows(lists, a + 1, |lists| - 1, i);
      var j: nat :| FirstPartner(B, d.partner.value, i, j) && Holds(M[i], B[j]);
    }
  }

  lemma {:induction false} EntryGrows(lists: seq<seq<Snap>>, a: nat, k: nat, i: nat)
    requires Steady(lists) && a <= k < |lists| && i < |lists[0]|
    ensures i < |lists[a]| <= |lists[k]| && Holds(lists[k][i], lists[a][i])
  {
    hide Place, DistinctIds, LinksResolve, Evidence;
    RunExtends(lists, a);
    if a < k {
      EntryGrows(lists, a, k - 1, i);
      StepAt(lists, k - 1);
    }
  }
}
