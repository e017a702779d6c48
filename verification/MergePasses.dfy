/** The passes that drop entries, as they run: nested loops over a filtered sublist that rewrite
    shared activity objects in place. Each is proved to compute `Greedy.Merged`. */
module MergePasses {
  import opened Text
  import opened Activities
  import opened Greedy
  import opened Dedup

  // ---- filtered sublists -------------------------------------------------

  /** `items` lists the activities of the given kinds in list order; `pos` says where each sits. */
  ghost predicate Selected(activities: seq<Activity>, kinds: set<string>, items: seq<Activity>, pos: seq<nat>) {
    && |pos| == |items|
    && (forall k :: 0 <= k < |pos| ==> pos[k] < |activities| && items[k] == activities[pos[k]])
    && (forall k, l :: 0 <= k < l < |pos| ==> pos[k] < pos[l])
    && (forall j :: 0 <= j < |activities| ==> (activities[j].facts.kind in kinds <==> j in pos))
  }

  method Select(activities: seq<Activity>, kinds: set<string>) returns (items: seq<Activity>, ghost pos: seq<nat>)
    ensures Selected(activities, kinds, items, pos)
  {
    items, pos := [], [];
    for n := 0 to |activities|
      invariant Selected(activities[..n], kinds, items, pos)
    {
      if activities[n].facts.kind in kinds {
        items, pos := items + [activities[n]], pos + [n];
      }
    }
    assert activities[..|activities|] == activities;
  }

  /** Where the `k`-th selected entry sits, or the end of the list. */
  ghost function Frontier(pos: seq<nat>, k: nat, n: nat): nat {
    if k < |pos| then pos[k] else n
  }

  lemma NothingBetween(activities: seq<Activity>, kinds: set<string>, items: seq<Activity>, pos: seq<nat>, k: nat,
                       j: nat)
    requires Selected(activities, kinds, items, pos) && k <= |pos|
    requires j < Frontier(pos, k, |activities|) && (k > 0 ==> pos[k - 1] < j)
    ensures activities[j].facts.kind !in kinds
  {
    forall l | 0 <= l < |pos| ensures pos[l] != j {
      if l < k - 1 { assert pos[l] < pos[k - 1]; }
      if k < l { assert pos[k] < pos[l]; }
    }
  }

  // ---- the two merging passes --------------------------------------------

  function Scope(rule: Rule): set<string>
    requires !rule.SameKey?
  {
    if rule.SameExecution? then EXECUTION_KINDS else FILE_ACCESS_KINDS
  }

  /** The guard of the outer loop: a parsed timestamp and a name or path. */
  predicate Mergeable(rule: Rule, f: Facts)
    requires !rule.SameKey?
  {
    f.stamp.GoodStamp? &&
    if rule.SameExecution? then Lower(Field(f, "process_name")) != "" else Normalized(Field(f, "file_path")) != ""
  }

  lemma RelatedInScope(rule: Rule, x: Snap, y: Snap)
    requires !rule.SameKey? && Related(rule, x, y)
    ensures x.facts.kind in Scope(rule) && y.facts.kind in Scope(rule) && Mergeable(rule, x.facts)
  {}

  lemma RelatedByFacts(rule: Rule, x: Snap, x': Snap, y: Snap)
    requires !rule.SameKey? && x.facts == x'.facts
    ensures Related(rule, x, y) == Related(rule, x', y)
  {}

  ghost predicate AbsorbedBefore(rule: Rule, L: seq<Snap>, f: nat, j: nat)
    requires f <= |L| && j < |L|
  {
    exists i :: 0 <= i < f && Absorbs(rule, L, i, j)
  }

  /** The test the inner loop makes, "not merged yet and related", is the test of `Absorbs`. */
  lemma AbsorbsWhen(rule: Rule, L: seq<Snap>, i: nat, j: nat)
    requires i < j < |L| && Keeps(rule, L, i)
    ensures Absorbs(rule, L, i, j) <==> Related(rule, L[i], L[j]) && !AbsorbedBefore(rule, L, i, j)
  {
    if AbsorbedBefore(rule, L, i, j) {
      var h :| 0 <= h < i && Absorbs(rule, L, h, j);
      assert Related(rule, L[h], L[j]) && Keeps(rule, L, h);
    } else if Related(rule, L[i], L[j]) && !Absorbs(rule, L, i, j) {
      var h :| 0 <= h < i && Related(rule, L[h], L[j]) && Keeps(rule, L, h);
      var least := LeastRelated(rule, L, h, j);
      assert AbsorbedBefore(rule, L, i, j);
    }
  }

  /** `merged` holds the ids of what the survivors before `i` absorbed and of what `i` absorbed from `L[..g]`. */
  ghost predicate Tracks(rule: Rule, L: seq<Snap>, merged: set<nat>, i: nat, g: nat)
    requires i < |L|
  {
    forall j: nat :: j < |L| ==>
      (L[j].facts.id in merged <==> AbsorbedBefore(rule, L, i, j) || (j < g && Absorbs(rule, L, i, j)))
  }

  lemma TrackStep(rule: Rule, L: seq<Snap>, merged: set<nat>, i: nat, g: nat, h: nat)
    requires i < g < h <= |L| && DistinctIds(L) && Tracks(rule, L, merged, i, g)
    requires forall j :: g < j < h ==> !Absorbs(rule, L, i, j)
    ensures Tracks(rule, L, if Absorbs(rule, L, i, g) then merged + {L[g].facts.id} else merged, i, h)
  {
    hide Absorbs;
  }

  lemma KeptUnlessAbsorbed(rule: Rule, L: seq<Snap>, j: nat)
    requires j < |L|
    ensures Keeps(rule, L, j) == !AbsorbedBefore(rule, L, j, j) == !AbsorbedBefore(rule, L, |L|, j)
  {
    DroppedHasOneAbsorber(rule, L, j);
  }

  /** The two assignment blocks of the merging passes. */
  method AbsorbInPlace(rule: Rule, activity: Activity, candidate: Activity)
    requires !rule.SameKey? && activity != candidate
    modifies activity
    ensures activity.View() == old(Absorb(rule, activity.View(), candidate.View()))
  {
    hide MergeLists, Fill, Normalized, Lower;
    activity.reasons := MergeLists(activity.reasons, candidate.reasons);
    activity.confidence := MaxReal(activity.confidence, candidate.confidence);
    if rule.SameExecution? {
      activity.TakeEvidence(candidate, ["correlated_execution"]);
      activity.confidence := MaxReal(activity.confidence, 0.95);
      activity.sources := SortedSet([OrUnknown(Field(activity.facts, "source")),
                                     OrUnknown(Field(candidate.facts, "source"))]);
      activity.notes := Fill(activity.notes, candidate.notes, "run_count");
      activity.notes := Fill(activity.notes, candidate.notes, "last_run");
    } else {
      activity.TakeEvidence(candidate, ["correlated_file_access"]);
      activity.confidence := MaxReal(activity.confidence, 0.9);
      activity.sources := SortedSet([OrUnknown(Normalized(Field(activity.facts, "source"))),
                                     OrUnknown(Normalized(Field(candidate.facts, "source")))]);
      activity.notes := Fill(activity.notes, candidate.notes, "source_lnk");
      activity.notes := Fill(activity.notes, candidate.notes, "source_jumplist");
    }
  }

  /** The inner loop for one surviving activity. */
  method AbsorbMatches(rule: Rule, ghost activities: seq<Activity>, items: seq<Activity>, ghost pos: seq<nat>,
                       index: nat, merged: set<nat>, ghost L: seq<Snap>)
    returns (merged': set<nat>)
    requires !rule.SameKey?
    requires DistinctActivities(activities) && Selected(activities, Scope(rule), items, pos) && index < |items|
    requires |L| == |activities| && Keeps(rule, L, pos[index])
    requires forall j :: 0 <= j < |L| ==> activities[j].facts == L[j].facts
    requires forall j :: pos[index] <= j < |L| ==> activities[j].View() == L[j]
    requires Tracks(rule, L, merged, pos[index], 0)
    modifies items[index]
    ensures items[index].View() == Grown(rule, L, pos[index], |L|)
    ensures Tracks(rule, L, merged', pos[index], |L|)
  {
    hide Related, Absorb, Tracks, Absorbs, Keeps;
    var activity := items[index];
    ghost var i := pos[index];
    merged' := merged;
    var k := index + 1;
    ghost var g := Frontier(pos, k, |L|);
    SkipUnrelated(rule, activities, items, pos, index, index, L);
    GrownUntouched(rule, L, i, 0, g);
    TrackSkip(rule, L, merged, i, g);
    while k < |items|
      invariant index < k <= |items| && g == Frontier(pos, k, |L|) && i < g
      invariant activity.View() == Grown(rule, L, i, g)
      invariant Tracks(rule, L, merged', i, g)
    {
      var candidate := items[k];
      assert candidate.View() == L[g];
      InnerTest(rule, L, merged', i, g, activity.View());
      ghost var h := Frontier(pos, k + 1, |L|);
      SkipUnrelated(rule, activities, items, pos, index, k, L);
      TrackStep(rule, L, merged', i, g, h);
      GrownUntouched(rule, L, i, g + 1, h);
      if candidate.facts.id !in merged' && Related(rule, activity.View(), candidate.View()) {
        AbsorbInPlace(rule, activity, candidate);
        merged' := merged' + {candidate.facts.id};
      }
      k, g := k + 1, h;
    }
  }

  lemma TrackSkip(rule: Rule, L: seq<Snap>, merged: set<nat>, i: nat, g: nat)
    requires i < |L| && Tracks(rule, L, merged, i, 0)
    requires forall j :: 0 <= j < g && j < |L| ==> !Absorbs(rule, L, i, j)
    ensures Tracks(rule, L, merged, i, g)
  {
    hide Absorbs;
  }

  /** The test of the inner loop on the current state decides `Absorbs` on the original list. */
  lemma InnerTest(rule: Rule, L: seq<Snap>, merged: set<nat>, i: nat, g: nat, now: Snap)
    requires !rule.SameKey? && i < g < |L| && Keeps(rule, L, i) && Tracks(rule, L, merged, i, g)
    requires now == Grown(rule, L, i, g)
    ensures Absorbs(rule, L, i, g) <==> L[g].facts.id !in merged && Related(rule, now, L[g])
  {
    hide Related;
    AbsorbsWhen(rule, L, i, g);
    GrownFacts(rule, L, i, g);
    RelatedByFacts(rule, L[i], now, L[g]);
  }

  lemma SkipUnrelated(rule: Rule, activities: seq<Activity>, items: seq<Activity>, pos: seq<nat>, index: nat, k: nat,
                      L: seq<Snap>)
    requires !rule.SameKey?
    requires Selected(activities, Scope(rule), items, pos) && index <= k < |items| && |L| == |activities|
    requires forall j :: 0 <= j < |L| ==> activities[j].facts == L[j].facts
    ensures pos[k] < Frontier(pos, k + 1, |L|) <= |L|
    ensures forall j :: pos[k] < j < Frontier(pos, k + 1, |L|) ==> !Absorbs(rule, L, pos[index], j)
    ensures k == index ==> forall j :: 0 <= j < Frontier(pos, k + 1, |L|) ==> !Absorbs(rule, L, pos[index], j)
  {
    forall j | pos[k] < j < Frontier(pos, k + 1, |L|) ensures !Absorbs(rule, L, pos[index], j) {
      NothingBetween(activities, Scope(rule), items, pos, k + 1, j);
      if Related(rule, L[pos[index]], L[j]) { RelatedInScope(rule, L[pos[index]], L[j]); }
    }
  }

  /** The outer loop has settled every survivor before position `f`. */
  ghost predicate Settled(rule: Rule, activities: seq<Activity>, L: seq<Snap>, merged: set<nat>, f: nat)
    reads activities
  {
    && |L| == |activities| && f <= |L|
    && (forall j: nat :: j < |L| ==> (L[j].facts.id in merged <==> AbsorbedBefore(rule, L, f, j)))
    && (forall j: nat :: j < |L| ==> activities[j].View() == if j < f then Grown(rule, L, j, |L|) else L[j])
    && (forall j: nat :: j < |L| ==> activities[j].facts == L[j].facts)
  }

  /** One round of the outer loop. */
  method SettleOne(rule: Rule, ghost activities: seq<Activity>, items: seq<Activity>, ghost pos: seq<nat>,
                   index: nat, merged: set<nat>, ghost L: seq<Snap>)
    returns (merged': set<nat>)
    requires !rule.SameKey?
    requires DistinctActivities(activities) && Selected(activities, Scope(rule), items, pos) && index < |items|
    requires Settled(rule, activities, L, merged, pos[index])
    modifies items[index]
    ensures Settled(rule, activities, L, merged', pos[index] + 1)
  {
    hide Related, Absorb, Absorbs, Keeps, Grown, Scope, Mergeable;
    ghost var f := pos[index];
    KeptUnlessAbsorbed(rule, L, f);
    if items[index].facts.id !in merged && Mergeable(rule, items[index].facts) {
      assert forall j: nat :: j < |L| && j != f ==> activities[j] != items[index];
      merged' := AbsorbMatches(rule, activities, items, pos, index, merged, L);
    } else {
      AbsorbsNothing(rule, L, f);
      merged' := merged;
    }
  }

  /** `correlate_program_execution_sources` and `correlate_file_access_sources`. */
  method MergeSources(rule: Rule, activities: seq<Activity>) returns (kept: seq<Activity>)
    requires !rule.SameKey? && DistinctActivities(activities)
    modifies activities
    ensures Views(kept) == Merged(rule, old(Views(activities)))
    ensures forall k :: 0 <= k < |kept| ==> kept[k] in activities
    ensures DistinctActivities(kept)
  {
    hide *;
    ghost var L := Views(activities);
    var items, pos := Select(activities, Scope(rule));
    var merged: set<nat> := {};
    var index := 0;
    SettledAtStart(rule, activities, items, pos, L);
    while index < |items|
      invariant 0 <= index <= |items|
      invariant Settled(rule, activities, L, merged, Frontier(pos, index, |L|))
    {
      FrontierInside(activities, rule, items, pos, index, L);
      merged := SettleOne(rule, activities, items, pos, index, merged, L);
      index := index + 1;
      SettledSkip(rule, activities, items, pos, index, merged, L);
    }
    SettledAtEnd(rule, activities, items, pos, merged, L);
    kept := Unmerged(rule, activities, merged, L);
  }

  lemma FrontierInside(activities: seq<Activity>, rule: Rule, items: seq<Activity>, pos: seq<nat>, index: nat,
                       L: seq<Snap>)
    requires !rule.SameKey? && Selected(activities, Scope(rule), items, pos) && index < |items|
    ensures |pos| == |items| && Frontier(pos, index, |L|) == pos[index]
    ensures items[index] in activities
  {}

  lemma SettledAtStart(rule: Rule, activities: seq<Activity>, items: seq<Activity>, pos: seq<nat>, L: seq<Snap>)
    requires !rule.SameKey? && Selected(activities, Scope(rule), items, pos) && L == Views(activities)
    ensures Settled(rule, activities, L, {}, Frontier(pos, 0, |L|))
  {
    hide Related, Absorb, Absorbs, Keeps, Grown, Scope;
    SkipOutOfScope(rule, activities, items, pos, 0, 0, L);
  }

  lemma SettledSkip(rule: Rule, activities: seq<Activity>, items: seq<Activity>, pos: seq<nat>, k: nat,
                    merged: set<nat>, L: seq<Snap>)
    requires !rule.SameKey? && Selected(activities, Scope(rule), items, pos) && 0 < k <= |items|
    requires Settled(rule, activities, L, merged, pos[k - 1] + 1)
    ensures Settled(rule, activities, L, merged, Frontier(pos, k, |L|))
  {
    hide Related, Absorb, Absorbs, Keeps, Grown, Scope;
    SkipOutOfScope(rule, activities, items, pos, k, pos[k - 1] + 1, L);
  }

  lemma SettledAtEnd(rule: Rule, activities: seq<Activity>, items: seq<Activity>, pos: seq<nat>, merged: set<nat>,
                     L: seq<Snap>)
    requires !rule.SameKey? && Selected(activities, Scope(rule), items, pos)
    requires Settled(rule, activities, L, merged, Frontier(pos, |items|, |L|))
    ensures |L| == |activities|
    ensures forall j: nat :: j < |L| ==> activities[j].View() == Grown(rule, L, j, |L|)
    ensures forall j: nat :: j < |L| ==> (activities[j].facts.id in merged <==> !Keeps(rule, L, j))
  {
    hide Related, Absorb, Absorbs, Keeps, Grown, Scope;
    forall j: nat | j < |L| ensures L[j].facts.id in merged <==> !Keeps(rule, L, j) {
      KeptUnlessAbsorbed(rule, L, j);
    }
  }

  /** `[item for item in activities if item.id not in merged_ids]`. */
  method Unmerged(rule: Rule, activities: seq<Activity>, merged: set<nat>, ghost L: seq<Snap>)
    returns (kept: seq<Activity>)
    requires DistinctActivities(activities) && |L| == |activities|
    requires forall j: nat :: j < |L| ==> activities[j].View() == Grown(rule, L, j, |L|)
    requires forall j: nat :: j < |L| ==> (activities[j].facts.id in merged <==> !Keeps(rule, L, j))
    ensures Views(kept) == Merged(rule, L)
    ensures forall k :: 0 <= k < |kept| ==> kept[k] in activities
    ensures DistinctActivities(kept)
  {
    hide Keeps, Grown;
    kept := [];
    for n := 0 to |activities|
      invariant Views(kept) == MergedUpTo(rule, L, n)
      invariant forall k :: 0 <= k < |kept| ==> kept[k] in activities[..n]
      invariant DistinctActivities(kept)
    {
      if activities[n].facts.id !in merged {
        ghost var before := Views(kept);
        assert forall a :: a in activities[..n] ==> a.facts.id != activities[n].facts.id;
        kept := kept + [activities[n]];
        assert Views(kept) == before + [activities[n].View()];
      }
    }
  }

  lemma SkipOutOfScope(rule: Rule, activities: seq<Activity>, items: seq<Activity>, pos: seq<nat>, k: nat, f: nat,
                       L: seq<Snap>)
    requires !rule.SameKey?
    requires Selected(activities, Scope(rule), items, pos) && k <= |items| && |L| == |activities|
    requires forall j :: 0 <= j < |L| ==> activities[j].facts == L[j].facts
    requires f == if k == 0 then 0 else pos[k - 1] + 1
    ensures f <= Frontier(pos, k, |L|) <= |L|
    ensures forall j :: f <= j < Frontier(pos, k, |L|) ==> Grown(rule, L, j, |L|) == L[j]
    ensures forall j: nat :: j < |L| ==>
      AbsorbedBefore(rule, L, f, j) == AbsorbedBefore(rule, L, Frontier(pos, k, |L|), j)
  {
    hide Keeps, Related, Grown, Scope;
    forall i | f <= i < Frontier(pos, k, |L|)
      ensures Grown(rule, L, i, |L|) == L[i]
      ensures forall j :: 0 <= j < |L| ==> !Absorbs(rule, L, i, j)
    {
      NothingBetween(activities, Scope(rule), items, pos, k, i);
      OutOfScope(rule, L, i);
    }
  }

  lemma AbsorbsNothing(rule: Rule, L: seq<Snap>, i: nat)
    requires !rule.SameKey? && i < |L| && (!Keeps(rule, L, i) || !Mergeable(rule, L[i].facts))
    ensures Grown(rule, L, i, |L|) == L[i]
    ensures forall j :: 0 <= j < |L| ==> !Absorbs(rule, L, i, j)
  {
    forall j | 0 <= j < |L| ensures !Absorbs(rule, L, i, j) {
      if Related(rule, L[i], L[j]) { RelatedInScope(rule, L[i], L[j]); }
    }
    GrownUntouched(rule, L, i, 0, |L|);
  }

  lemma OutOfScope(rule: Rule, L: seq<Snap>, i: nat)
    requires !rule.SameKey? && i < |L| && L[i].facts.kind !in Scope(rule)
    ensures Grown(rule, L, i, |L|) == L[i]
    ensures forall j :: 0 <= j < |L| ==> !Absorbs(rule, L, i, j)
  {
    forall j | 0 <= j < |L| ensures !Absorbs(rule, L, i, j) {
      if Related(rule, L[i], L[j]) { RelatedInScope(rule, L[i], L[j]); }
    }
    GrownUntouched(rule, L, i, 0, |L|);
  }

  // ---- the dedup pass ------------------------------------------------------

  function ActivityTime(a: Activity): string {
    StampText(a.facts.stamp)
  }

  /** Where the first entry of each key in `L[..n]` sits. */
  ghost function LeaderMap(L: seq<Snap>, n: nat): map<Key, nat>
    requires n <= |L|
  {
    if n == 0 then map[]
    else if BucketKey(L[n - 1]) in LeaderMap(L, n - 1) then LeaderMap(L, n - 1)
    else LeaderMap(L, n - 1)[BucketKey(L[n - 1]) := n - 1]
  }

  lemma {:induction false} LeaderMapCorrect(L: seq<Snap>, n: nat)
    requires n <= |L|
    ensures forall j :: 0 <= j < n ==> BucketKey(L[j]) in LeaderMap(L, n)
    ensures forall k :: k in LeaderMap(L, n) ==>
      LeaderMap(L, n)[k] < n && Leads(L, LeaderMap(L, n)[k]) && BucketKey(L[LeaderMap(L, n)[k]]) == k
  {
    hide BucketKey;
    if n > 0 { LeaderMapCorrect(L, n - 1); }
  }

  /** `buckets` is that map with activities for positions. */
  ghost predicate Bucketed(activities: seq<Activity>, L: seq<Snap>, n: nat, buckets: map<Key, Activity>)
    requires n <= |L|
  {
    && buckets.Keys == LeaderMap(L, n).Keys
    && forall k :: k in buckets ==> LeaderMap(L, n)[k] < |activities| && buckets[k] == activities[LeaderMap(L, n)[k]]
  }

  /** `values` lists the leaders in order. */
  ghost predicate InOrder(activities: seq<Activity>, L: seq<Snap>, n: nat, values: seq<Activity>)
    requires n <= |L|
  {
    && |values| == |Survivors(SameKey, L, n)|
    && forall k :: 0 <= k < |values| ==>
      Survivors(SameKey, L, n)[k] < |activities| && values[k] == activities[Survivors(SameKey, L, n)[k]]
  }

  /** Each leader has absorbed the entries of its key among the first `n`. */
  ghost predicate GrownTo(activities: seq<Activity>, L: seq<Snap>, n: nat)
    requires n <= |L| == |activities|
    reads activities
  {
    forall j: nat :: j < |L| ==> activities[j].View() == Grown(SameKey, L, j, n)
  }

  /** What the arrival of entry `n` changes. */
  lemma EntryArrives(L: seq<Snap>, n: nat)
    requires n < |L|
    ensures BucketKey(L[n]) in LeaderMap(L, n) <==> !Leads(L, n)
    ensures Survivors(SameKey, L, n + 1) == Survivors(SameKey, L, n) + if Leads(L, n) then [n] else []
    ensures forall j: nat :: j < |L| ==>
      (Absorbs(SameKey, L, j, n) <==> !Leads(L, n) && j == LeaderMap(L, n)[BucketKey(L[n])])
  {
    hide BucketKey, Absorbs;
    SurvivorsLead(L, n);
    LeaderMapCorrect(L, n);
    if !Leads(L, n) {
      var i := LeaderMap(L, n)[BucketKey(L[n])];
      forall j: nat | j < |L| ensures Absorbs(SameKey, L, j, n) <==> j == i {
        AbsorbsEarlier(L, j, n);
        if j < n && Absorbs(SameKey, L, j, n) { LeadersDiffer(L, i, j); }
      }
    } else {
      forall j: nat | j < |L| ensures !Absorbs(SameKey, L, j, n) {
        AbsorbsEarlier(L, j, n);
      }
    }
  }

  lemma AbsorbsEarlier(L: seq<Snap>, j: nat, n: nat)
    requires j < |L| && n < |L|
    ensures Absorbs(SameKey, L, j, n) ==> j < n
  {}

  lemma LeadersDiffer(L: seq<Snap>, i: nat, j: nat)
    requires Leads(L, i) && Leads(L, j) && BucketKey(L[i]) == BucketKey(L[j])
    ensures i == j
  {
    hide BucketKey;
  }

  lemma GrowthStep(L: seq<Snap>, j: nat, n: nat)
    requires j < |L| && n < |L|
    ensures Grown(SameKey, L, j, n + 1) ==
      if Absorbs(SameKey, L, j, n) then Absorb(SameKey, Grown(SameKey, L, j, n), L[n]) else Grown(SameKey, L, j, n)
  {}

  /** The five assignments for a duplicate. */
  method AbsorbDuplicateInPlace(existing: Activity, activity: Activity)
    requires existing != activity
    modifies existing
    ensures existing.View() == old(Absorb(SameKey, existing.View(), activity.View()))
  {
    hide MergeLists;
    existing.TakeEvidence(activity, []);
    existing.reasons := MergeLists(existing.reasons, activity.reasons);
    existing.confidence := MaxReal(existing.confidence, activity.confidence);
    if activity.summary != "" && |activity.summary| > |existing.summary| {
      existing.summary := activity.summary;
    }
  }

  /** A duplicate joins its bucket. */
  method MergeDuplicate(ghost activities: seq<Activity>, ghost L: seq<Snap>, ghost n: nat, ghost i: nat,
                        existing: Activity, activity: Activity)
    requires DistinctActivities(activities) && n < |L| == |activities| && GrownTo(activities, L, n)
    requires i < n && forall j: nat :: j < |L| ==> (Absorbs(SameKey, L, j, n) <==> j == i)
    requires existing == activities[i] && activity == activities[n] && activity.View() == L[n]
    modifies existing
    ensures GrownTo(activities, L, n + 1)
  {
    hide Grown, Absorb, Absorbs;
    ghost var before := Views(activities);
    AbsorbDuplicateInPlace(existing, activity);
    forall j: nat | j < |L| ensures activities[j].View() == Grown(SameKey, L, j, n + 1) {
      GrowthStep(L, j, n);
      if j != i { assert activities[j].facts.id != existing.facts.id; }
      assert before[j] == Grown(SameKey, L, j, n);
    }
  }

  lemma LeadersAsMerged(activities: seq<Activity>, L: seq<Snap>, values: seq<Activity>)
    requires DistinctActivities(activities) && |L| == |activities|
    requires InOrder(activities, L, |L|, values) && GrownTo(activities, L, |L|)
    ensures Views(values) == Merged(SameKey, L)
    ensures DistinctActivities(values)
    ensures forall k :: 0 <= k < |values| ==> values[k] in activities
  {
    hide Grown, Keeps;
    var at := MergedPositions(SameKey, L, |L|);
    assert forall k :: 0 <= k < |values| ==> values[k].View() == Merged(SameKey, L)[k];
  }

  lemma {:induction false} InsertViews(s: seq<Activity>, x: Activity)
    ensures Views(InsertByKey(s, x, ActivityTime)) == InsertByKey(Views(s), x.View(), SnapTime)
  {
    if s != [] && LexLess(ActivityTime(x), ActivityTime(s[|s| - 1])) {
      InsertViews(s[..|s| - 1], x);
      assert Views(s)[..|s| - 1] == Views(s[..|s| - 1]);
    }
  }

  /** Sorting the objects sorts their snapshots. */
  lemma {:induction false} SortedViews(s: seq<Activity>)
    ensures Views(StableSort(s, ActivityTime)) == StableSort(Views(s), SnapTime)
  {
    if s != [] {
      SortedViews(s[..|s| - 1]);
      assert Views(s)[..|s| - 1] == Views(s[..|s| - 1]);
      InsertViews(StableSort(s[..|s| - 1], ActivityTime), s[|s| - 1]);
    }
  }

  lemma SortedMembers(s: seq<Activity>)
    requires DistinctActivities(s)
    ensures DistinctActivities(StableSort(s, ActivityTime))
    ensures forall k :: 0 <= k < |StableSort(s, ActivityTime)| ==> StableSort(s, ActivityTime)[k] in s
  {
    hide StableSort, WithKey, SortedByKey, InsertByKey, LexLess;
    var r := StableSort(s, ActivityTime);
    StableSortCorrect(s, ActivityTime, "");
    SameObjects(s, r);
    forall i, j | 0 <= i < j < |r| ensures r[i].facts.id != r[j].facts.id {
      if r[i] == r[j] {
        assert r == r[..j] + [r[j]] + r[j + 1..];
        assert r[i] in r[..j];
        ObjectAtMostOnce(s, r[i]);
      } else {
        assert r[i] in s && r[j] in s;
      }
    }
  }

  lemma SameObjects(s: seq<Activity>, r: seq<Activity>)
    requires multiset(s) == multiset(r)
    ensures forall k :: 0 <= k < |r| ==> r[k] in s
  {
    forall k | 0 <= k < |r| ensures r[k] in s {
      assert r[k] in multiset(r);
    }
  }

  lemma {:induction false} ObjectAtMostOnce(s: seq<Activity>, a: Activity)
    requires DistinctActivities(s)
    ensures multiset(s)[a] <= 1
  {
    if s != [] {
      var front := s[..|s| - 1];
      assert s == front + [s[|s| - 1]];
      ObjectAtMostOnce(front, a);
      if s[|s| - 1] == a { assert a !in front; }
    }
  }

  /** Looking the next key up finds the leader of its bucket, if there is one. */
  lemma Lookup(activities: seq<Activity>, L: seq<Snap>, n: nat, buckets: map<Key, Activity>)
    requires n < |L| == |activities| && Bucketed(activities, L, n, buckets) && GrownTo(activities, L, n)
    ensures activities[n].View() == L[n]
    ensures BucketKey(L[n]) in buckets <==> !Leads(L, n)
    ensures BucketKey(L[n]) in buckets <==> BucketKey(L[n]) in LeaderMap(L, n)
    ensures BucketKey(L[n]) in buckets ==>
      var i := LeaderMap(L, n)[BucketKey(L[n])];
      i < n && buckets[BucketKey(L[n])] == activities[i]
    ensures forall j: nat :: j < |L| ==>
      (Absorbs(SameKey, L, j, n) <==> !Leads(L, n) && j == LeaderMap(L, n)[BucketKey(L[n])])
  {
    hide BucketKey, Leads, Absorbs;
    EntryArrives(L, n);
    StillAsGiven(L, n);
    LeaderMapCorrect(L, n);
  }

  lemma NewBucket(activities: seq<Activity>, L: seq<Snap>, n: nat, buckets: map<Key, Activity>, values: seq<Activity>)
    requires n < |L| == |activities| && Leads(L, n)
    requires Bucketed(activities, L, n, buckets) && InOrder(activities, L, n, values) && GrownTo(activities, L, n)
    ensures Bucketed(activities, L, n + 1, buckets[BucketKey(L[n]) := activities[n]])
    ensures InOrder(activities, L, n + 1, values + [activities[n]])
    ensures GrownTo(activities, L, n + 1)
  {
    hide BucketKey, Leads, Absorbs, Grown, Keeps, Survivors;
    EntryArrives(L, n);
    forall j: nat | j < |L| ensures activities[j].View() == Grown(SameKey, L, j, n + 1) { GrowthStep(L, j, n); }
  }

  lemma OldBucket(activities: seq<Activity>, L: seq<Snap>, n: nat, buckets: map<Key, Activity>, values: seq<Activity>)
    requires n < |L| == |activities| && !Leads(L, n)
    requires Bucketed(activities, L, n, buckets) && InOrder(activities, L, n, values)
    ensures Bucketed(activities, L, n + 1, buckets) && InOrder(activities, L, n + 1, values)
  {
    hide BucketKey, Leads, Absorbs, Grown, Keeps, Survivors;
    EntryArrives(L, n);
  }

  /** `deduplicate_activities`. */
  method Deduplicate(activities: seq<Activity>) returns (kept: seq<Activity>)
    requires DistinctActivities(activities)
    modifies activities
    ensures Views(kept) == Deduplicated(old(Views(activities)))
    ensures forall k :: 0 <= k < |kept| ==> kept[k] in activities
    ensures DistinctActivities(kept)
  {
    hide BucketKey, Absorb, Grown, Leads, Absorbs, StableSort, Merged, Survivors, Bucketed, InOrder, GrownTo, LeaderMap;
    ghost var L := Views(activities);
    var buckets: map<Key, Activity> := map[];
    var values: seq<Activity> := [];
    AllEmptyAtStart(activities, L);
    for n := 0 to |activities|
      invariant Bucketed(activities, L, n, buckets)
      invariant InOrder(activities, L, n, values)
      invariant GrownTo(activities, L, n)
    {
      var activity := activities[n];
      Lookup(activities, L, n, buckets);
      var key := BucketKey(activity.View());
      if key !in buckets {
        NewBucket(activities, L, n, buckets, values);
        buckets := buckets[key := activity];
        values := values + [activity];
      } else {
        OldBucket(activities, L, n, buckets, values);
        MergeDuplicate(activities, L, n, LeaderMap(L, n)[key], buckets[key], activity);
      }
    }
    LeadersAsMerged(activities, L, values);
    kept := StableSort(values, ActivityTime);
    SortedViews(values);
    SortedMembers(values);
  }

  lemma AllEmptyAtStart(activities: seq<Activity>, L: seq<Snap>)
    requires L == Views(activities)
    ensures Bucketed(activities, L, 0, map[]) && InOrder(activities, L, 0, []) && GrownTo(activities, L, 0)
  {}

  /** An entry is as it was given until it arrives: only earlier entries have been merged into. */
  lemma StillAsGiven(L: seq<Snap>, n: nat)
    requires n < |L|
    ensures Grown(SameKey, L, n, n) == L[n]
  {
    GrownUntouched(SameKey, L, n, 0, n);
  }
}
