/** A table pass as it runs: nested loops over the shared activity objects. */
module CorrelatePass {
  import opened Activities
  import opened TablePasses

  ghost function Objects(found: seq<seq<Activity>>): set<Activity> {
    if found == [] then {} else (set a | a in found[0]) + Objects(found[1..])
  }

  function ViewsOf(found: seq<seq<Activity>>): (r: seq<seq<Snap>>)
    reads Objects(found)
    ensures |r| == |found| && forall k :: 0 <= k < |found| ==> r[k] == Views(found[k])
  {
    if found == [] then [] else [Views(found[0])] + ViewsOf(found[1..])
  }

  lemma {:induction false} FirstStays(s: Slot, f: Facts, L: seq<Snap>, n: nat, m: nat)
    requires n <= m <= |L| && s.mode.First? && FoundUpTo(s, f, L, n) != []
    ensures FoundUpTo(s, f, L, m) == FoundUpTo(s, f, L, n)
    decreases m
  {
    if n < m { FirstStays(s, f, L, n, m - 1); }
  }

  /** The candidate loop of one slot, left at the first match unless all matches are wanted. */
  method Find(s: Slot, f: Facts, activities: seq<Activity>, ghost L: seq<Snap>) returns (found: seq<Activity>)
    requires |L| == |activities| && forall j :: 0 <= j < |L| ==> activities[j].facts == L[j].facts
    requires forall j :: 0 <= j < |L| && s.from(L[j].facts) ==> activities[j].View() == L[j]
    ensures Views(found) == FoundUpTo(s, f, L, |L|)
    ensures forall k :: 0 <= k < |found| ==> found[k] in activities && s.from(found[k].facts)
  {
    found := [];
    var n := 0;
    while n < |activities| && !(s.mode.First? && found != [])
      invariant 0 <= n <= |activities|
      invariant Views(found) == FoundUpTo(s, f, L, n)
      invariant forall k :: 0 <= k < |found| ==> found[k] in activities && s.from(found[k].facts)
    {
      if s.from(activities[n].facts) && s.matches(f, activities[n].View()) {
        ghost var before := Views(found);
        found := found + [activities[n]];
        assert Views(found) == before + [activities[n].View()];
      }
      n := n + 1;
    }
    if n < |activities| { FirstStays(s, f, L, n, |L|); }
  }

  method EnrichInPlace(s: Slot, item: Activity, match': Activity)
    requires item != match'
    modifies item
    ensures item.View() == old(Enrich(s, item.View(), match'.View()))
  {
    hide MergeLists;
    item.TakeEvidence(match', s.tags);
    if s.takesReasons || s.reasons != [] {
      item.reasons := MergeLists(item.reasons, (if s.takesReasons then match'.reasons else []) + s.reasons);
    }
    item.confidence := MaxReal(item.confidence, s.floor(item.facts, match'.facts));
    item.notes := s.annotate(item.notes, match'.View());
    if s.link.Some? { item.links := item.links[s.link.value := match'.facts.id]; }
  }

  method EnrichWithAll(s: Slot, item: Activity, found: seq<Activity>)
    requires item !in found
    modifies item
    ensures item.View() == EnrichAll(s, old(item.View()), old(Views(found)))
  {
    hide Enrich;
    ghost var x, F := item.View(), Views(found);
    for k := 0 to |found|
      invariant item.View() == EnrichAll(s, x, F[..k])
    {
      assert F[..k + 1][..k] == F[..k];
      assert found[k].View() == F[k];
      EnrichInPlace(s, item, found[k]);
    }
    assert F[..|found|] == F;
  }

  /** Append the derived activities of one slot. */
  method Derive(recipes: seq<Recipe>, item: Activity, found: seq<seq<Activity>>, nextId: nat)
    returns (news: seq<Activity>)
    ensures Views(news) == DerivedBy(recipes, old(item.View()), old(ViewsOf(found)), nextId)
    ensures forall k :: 0 <= k < |news| ==> fresh(news[k])
  {
    hide Derived, Applies;
    news := [];
    ghost var x, F := item.View(), ViewsOf(found);
    for k := 0 to |recipes|
      invariant Views(news) == DerivedBy(recipes[..k], x, F, nextId)
      invariant forall k :: 0 <= k < |news| ==> fresh(news[k])
      invariant item.View() == x && ViewsOf(found) == F
    {
      assert recipes[..k + 1][..k] == recipes[..k];
      if Applies(recipes[k], item.facts, ViewsOf(found)) {
        var derived := new Activity(Derived(recipes[k], item.View(), ViewsOf(found), nextId + |news|));
        ghost var before := Views(news);
        news := news + [derived];
        assert Views(news) == before + [derived.View()];
      }
    }
    assert recipes[..|recipes|] == recipes;
  }

  /** One slot of one item: enrich it with every match, then append what is derived. */
  method ApplySlot(s: Slot, item: Activity, matched: seq<Activity>, found: seq<seq<Activity>>, nextId: nat)
    returns (news: seq<Activity>)
    requires item !in matched && forall k :: 0 <= k < |found| ==> item !in found[k]
    modifies item
    ensures item.View() == EnrichAll(s, old(item.View()), old(Views(matched)))
    ensures Views(news) == DerivedBy(s.derive, item.View(), old(ViewsOf(found)), nextId)
    ensures forall k :: 0 <= k < |news| ==> fresh(news[k])
    ensures ViewsOf(found) == old(ViewsOf(found))
  {
    hide EnrichAll, DerivedBy, ViewsOf;
    ghost var F := ViewsOf(found);
    EnrichWithAll(s, item, matched);
    assert forall k :: 0 <= k < |found| ==> Views(found[k]) == F[k];
    assert ViewsOf(found) == F;
    news := Derive(s.derive, item, found, nextId);
    assert forall k :: 0 <= k < |found| ==> Views(found[k]) == F[k];
  }

  /** One item: enrich it slot by slot, appending derived activities as they arise. */
  method ApplySlots(slots: seq<Slot>, item: Activity, found: seq<seq<Activity>>, nextId: nat)
    returns (news: seq<Activity>)
    requires |found| == |slots| && forall k :: 0 <= k < |found| ==> item !in found[k]
    modifies item
    ensures var o := AfterSlots(slots, |slots|, old(item.View()), old(ViewsOf(found)), nextId);
      item.View() == o.item && Views(news) == o.derived
    ensures forall k :: 0 <= k < |news| ==> fresh(news[k])
  {
    hide EnrichAll, DerivedBy, ViewsOf;
    news := [];
    ghost var x, F := item.View(), ViewsOf(found);
    for k := 0 to |slots|
      invariant item.View() == AfterSlots(slots, k, x, F, nextId).item
      invariant Views(news) == AfterSlots(slots, k, x, F, nextId).derived
      invariant forall n :: 0 <= n < |news| ==> fresh(news[n])
      invariant ViewsOf(found) == F
    {
      assert Views(found[k]) == F[k];
      var more := ApplySlot(slots[k], item, found[k], found, nextId + |news|);
      ViewsConcat(news, more);
      news := news + more;
    }
  }

  /** The matches of slot `k`; `found` has those of the slots before it. */
  method FindUnless(slots: seq<Slot>, k: nat, found: seq<seq<Activity>>, f: Facts, activities: seq<Activity>,
                    ghost L: seq<Snap>)
    returns (matched: seq<Activity>)
    requires k < |slots| && |found| == k && WellOrdered(slots)
    requires |L| == |activities| && forall j :: 0 <= j < |L| ==> activities[j].facts == L[j].facts
    requires forall j :: 0 <= j < |L| && slots[k].from(L[j].facts) ==> activities[j].View() == L[j]
    requires forall n :: 0 <= n < k ==> Views(found[n]) == FoundAll(slots, f, L)[n]
    ensures Views(matched) == FoundAll(slots, f, L)[k]
    ensures forall n :: 0 <= n < |matched| ==> slots[k].from(matched[n].facts)
  {
    hide FoundUpTo;
    var u := slots[k].unless;
    if u.Some? && found[u.value] != [] {
      assert Views(found[u.value]) == FoundUpTo(slots[u.value], f, L, |L|);
      return [];
    }
    if u.Some? { assert Views(found[u.value]) == FoundUpTo(slots[u.value], f, L, |L|); }
    matched := Find(slots[k], f, activities, L);
  }

  /** All candidate loops of one item, run before any of its fields change. */
  method FindAll(slots: seq<Slot>, f: Facts, activities: seq<Activity>, ghost L: seq<Snap>)
    returns (found: seq<seq<Activity>>)
    requires WellOrdered(slots)
    requires |L| == |activities| && forall j :: 0 <= j < |L| ==> activities[j].facts == L[j].facts
    requires forall j, k :: 0 <= j < |L| && 0 <= k < |slots| && slots[k].from(L[j].facts) ==>
      activities[j].View() == L[j]
    ensures |found| == |slots| && ViewsOf(found) == FoundAll(slots, f, L)
    ensures forall k, n :: 0 <= k < |found| && 0 <= n < |found[k]| ==> slots[k].from(found[k][n].facts)
  {
    hide ViewsOf, FoundUpTo, WellOrdered, Superfluous;
    found := [];
    for k := 0 to |slots|
      invariant |found| == k
      invariant forall n :: 0 <= n < k ==> Views(found[n]) == FoundAll(slots, f, L)[n]
      invariant forall m, n :: 0 <= m < k && 0 <= n < |found[m]| ==> slots[m].from(found[m][n].facts)
    {
      var matched := FindUnless(slots, k, found, f, activities, L);
      found := found + [matched];
    }
  }

  /** Items before `n` have been through the pass. */
  ghost predicate PassedTo(p: Pass, activities: seq<Activity>, L: seq<Snap>, n: nat)
    requires |L| == |activities|
    reads activities
  {
    forall j: nat :: j < |L| ==> activities[j].View() == if j < n then ItemAfter(p, L, j) else L[j]
  }

  /** Candidates are never items, so they are still as they were. */
  lemma CandidatesUntouched(p: Pass, activities: seq<Activity>, L: seq<Snap>, n: nat)
    requires Separate(p) && |L| == |activities| && PassedTo(p, activities, L, n)
    ensures forall j, k :: 0 <= j < |L| && 0 <= k < |p.slots| && p.slots[k].from(L[j].facts) ==>
      activities[j].View() == L[j]
    ensures p.finder.ByDrive? ==> forall j :: 0 <= j < |L| && IsDevice(L[j].facts) ==> activities[j].View() == L[j]
  {
    hide AfterSlots, IsDevice;
  }

  /** The pass has dealt with the items before `n` and derived `news` from them. */
  ghost predicate Underway(p: Pass, activities: seq<Activity>, news: seq<Activity>, L: seq<Snap>, n: nat, base: nat)
    reads activities, news
  {
    && n <= |L| == |activities|
    && (forall j :: 0 <= j < |L| ==> activities[j].facts == L[j].facts)
    && PassedTo(p, activities, L, n)
    && Views(news) == NewUpTo(p, L, n, base)
    && forall k, j :: 0 <= k < |news| && 0 <= j < |activities| ==> news[k] != activities[j]
  }

  method ScanFor(p: Pass, activities: seq<Activity>, ghost news: seq<Activity>, n: nat, ghost L: seq<Snap>,
                 ghost base: nat)
    returns (found: seq<seq<Activity>>)
    requires p.finder.Scan? && Separate(p) && n < |activities| && Underway(p, activities, news, L, n, base)
    ensures p.selects(activities[n].facts) ==> ViewsOf(found) == Matched(p, activities[n].facts, L)
  {
    hide PassedTo, ViewsOf, FoundAll;
    found := [];
    if p.selects(activities[n].facts) {
      CandidatesUntouched(p, activities, L, n);
      found := FindAll(p.slots, activities[n].facts, activities, L);
    }
  }

  /** One round of the item loop. */
  method Advance(p: Pass, activities: seq<Activity>, n: nat, found: seq<seq<Activity>>, news: seq<Activity>,
                 ghost L: seq<Snap>, ghost base: nat, nextId: nat) returns (news': seq<Activity>)
    requires Separate(p) && DistinctActivities(activities) && n < |activities|
    requires Underway(p, activities, news, L, n, base) && nextId == base + |news|
    requires p.selects(activities[n].facts) ==> ViewsOf(found) == Matched(p, activities[n].facts, L)
    modifies activities[n]
    ensures Underway(p, activities, news', L, n + 1, base)
    ensures news <= news' && forall k :: |news| <= k < |news'| ==> fresh(news'[k])
  {
    hide Separate, ItemOutcome, PassedTo, Matched, ViewsOf;
    var more := PassOver(p, activities, activities[n], n, found, L, nextId);
    ViewsConcat(news, more);
    news' := news + more;
  }

  /** `activities + new_activities` after one append-only pass. */
  method Correlate(p: Pass, activities: seq<Activity>, nextId: nat) returns (all: seq<Activity>, nextId': nat)
    requires p.finder.Scan? && Separate(p) && DistinctActivities(activities)
    modifies activities
    ensures Views(all) == RunPass(p, old(Views(activities)), nextId)
    ensures nextId' == nextId + |all| - |activities|
    ensures activities <= all && forall k :: |activities| <= k < |all| ==> fresh(all[k])
  {
    hide Separate, Underway, RunPass, Matched, ViewsOf;
    var news: seq<Activity> := [];
    ghost var L := Views(activities);
    PassStarts(p, activities, L, nextId);
    for n := 0 to |activities|
      invariant Underway(p, activities, news, L, n, nextId)
      invariant forall k :: 0 <= k < |news| ==> fresh(news[k])
    {
      var found := ScanFor(p, activities, news, n, L, nextId);
      news := Advance(p, activities, n, found, news, L, nextId, nextId + |news|);
    }
    all, nextId' := activities + news, nextId + |news|;
    PassEnds(p, activities, news, L, nextId);
  }

  lemma PassStarts(p: Pass, activities: seq<Activity>, L: seq<Snap>, base: nat)
    requires L == Views(activities)
    ensures Underway(p, activities, [], L, 0, base)
  {}

  lemma PassEnds(p: Pass, activities: seq<Activity>, news: seq<Activity>, L: seq<Snap>, base: nat)
    requires Underway(p, activities, news, L, |activities|, base)
    ensures Views(activities + news) == RunPass(p, L, base)
  {
    hide ItemOutcome, NewUpTo;
    ViewsConcat(activities, news);
  }

  method CloseInPlace(p: Pass, item: Activity)
    modifies item
    ensures item.View() == Close(p, old(item.View()))
  {
    var reason := p.closing(item.facts);
    if reason.Some? && reason.value !in item.reasons {
      item.reasons := MergeLists(item.reasons, [reason.value]);
    }
  }

  /** One round of the item loop, given the item's matches. */
  method PassOver(p: Pass, ghost activities: seq<Activity>, item: Activity, ghost n: nat, found: seq<seq<Activity>>,
                  ghost L: seq<Snap>, nextId: nat) returns (news: seq<Activity>)
    requires Separate(p) && DistinctActivities(activities) && n < |L| == |activities| && item == activities[n]
    requires forall j :: 0 <= j < |L| ==> activities[j].facts == L[j].facts
    requires PassedTo(p, activities, L, n)
    requires p.selects(item.facts) ==> ViewsOf(found) == Matched(p, item.facts, L)
    modifies item
    ensures PassedTo(p, activities, L, n + 1)
    ensures Views(news) == ItemOutcome(p, L, n, nextId).derived
    ensures forall k :: 0 <= k < |news| ==> fresh(news[k])
  {
    hide AfterSlots, ViewsOf, Matched;
    news := [];
    if p.selects(item.facts) {
      forall k | 0 <= k < |found| ensures item !in found[k] {
        NotOwnMatch(p, item, found, L, k);
      }
      ItemIgnoresIds(p.slots, |p.slots|, L[n], Matched(p, item.facts, L), nextId, 0);
      news := ApplySlots(p.slots, item, found, nextId);
      CloseInPlace(p, item);
    }
    assert forall j: nat :: j < |L| && j != n ==> activities[j].facts.id != item.facts.id;
  }

  lemma NotOwnMatch(p: Pass, item: Activity, found: seq<seq<Activity>>, L: seq<Snap>, k: nat)
    requires Separate(p) && p.selects(item.facts) && ViewsOf(found) == Matched(p, item.facts, L) && k < |found|
    ensures item !in found[k]
  {
    hide ViewsOf, Matched, IsDevice;
    forall n | 0 <= n < |found[k]| ensures found[k][n] != item {
      assert Views(found[k]) == Matched(p, item.facts, L)[k];
      assert Views(found[k])[n] == found[k][n].View();
      MatchedAreEntries(p, item.facts, L, k, found[k][n].View());
    }
  }
}
