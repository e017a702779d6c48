/** The correlation pipeline of `build_case_semi_auto_analysis`: dedup, two merging passes, then
    passes that only extend the list. */
module Pipeline {
  import opened Text
  import opened Activities
  import opened Greedy
  import opened Dedup
  import opened Growth
  import opened MergePasses
  import opened TablePasses
  import opened CorrelatePass
  import Registry
  import Usb

  /** A pass of the second half: one driven by a table, or the registry pass. */
  datatype Stage = Table(pass: Pass) | RegistryStage(window: int)

  ghost predicate StageOk(s: Stage) {
    s.Table? ==> Separate(s.pass) && (s.pass.finder.ByDrive? ==> |s.pass.slots| == 2)
  }

  function RunStage(s: Stage, L: seq<Snap>, base: nat): seq<Snap> {
    match s
    case Table(p) => RunPass(p, L, base)
    case RegistryStage(w) => Registry.Correlated(L, w)
  }

  function RunStages(stages: seq<Stage>, k: nat, L: seq<Snap>, base: nat): seq<Snap>
    requires k <= |stages|
  {
    if k == 0 then L
    else
      var before := RunStages(stages, k - 1, L, base);
      RunStage(stages[k - 1], before, IdsAfter(base, L, before))
  }

  /** The next unused id once `L` has become `M`. */
  function IdsAfter(base: nat, L: seq<Snap>, M: seq<Snap>): nat {
    if |M| < |L| then base else base + |M| - |L|
  }

  const EXECUTION_WINDOW := 600
  const FILE_WINDOW := 1800

  /** The list after the passes that drop entries. */
  function Condensed(L: seq<Snap>): seq<Snap> {
    Merged(SameFile(FILE_WINDOW), Merged(SameExecution(EXECUTION_WINDOW), Deduplicated(L)))
  }

  function Analysed(stages: seq<Stage>, L: seq<Snap>, base: nat): seq<Snap> {
    RunStages(stages, |stages|, Condensed(L), base)
  }

  function Timeline(L: seq<Snap>): seq<Snap> {
    StableSort(L, SnapTime)
  }

  ghost predicate Below(L: seq<Snap>, base: nat) {
    forall s :: s in L ==> s.facts.id < base
  }

  // ---- the passes that drop entries ------------------------------------------------

  /** Every entry of `L` is represented in `M` by one of its kind that holds all of its evidence. */
  ghost predicate Represents(M: seq<Snap>, L: seq<Snap>) {
    forall s :: s in L ==> exists t :: t in M && t.facts.kind == s.facts.kind && Holds(t, s)
  }

  lemma RelatedSameKind(rule: Rule, x: Snap, y: Snap)
    requires Related(rule, x, y)
    ensures x.facts.kind == y.facts.kind
  {}

  lemma MergeRepresents(rule: Rule, L: seq<Snap>)
    ensures Represents(Merged(rule, L), L)
  {
    hide Related, Absorb, Grown, Keeps, Merged, Carried;
    forall s | s in L ensures exists t :: t in Merged(rule, L) && t.facts.kind == s.facts.kind && Holds(t, s) {
      var j :| 0 <= j < |L| && L[j] == s;
      OwnerHolds(rule, L, j);
    }
  }

  lemma OwnerHolds(rule: Rule, L: seq<Snap>, j: nat)
    requires j < |L|
    ensures exists t :: t in Merged(rule, L) && t.facts.kind == L[j].facts.kind && Holds(t, L[j])
  {
    hide Related, Absorb, Grown;
    DroppedHasOneAbsorber(rule, L, j);
    var i := j;
    if !Keeps(rule, L, j) {
      i :| 0 <= i < j && Absorbs(rule, L, i, j);
      RelatedSameKind(rule, L[i], L[j]);
    }
    var t := Grown(rule, L, i, |L|);
    GrownFacts(rule, L, i, |L|);
    SurvivorInMerged(rule, L, |L|, i);
    forall r | r in Elems(L[j].body.refs) ensures r in Elems(t.body.refs) { GrownEvidence(rule, L, i, |L|, Refs, r); }
    forall r | r in Elems(L[j].body.events) ensures r in Elems(t.body.events) {
      GrownEvidence(rule, L, i, |L|, Events, r);
    }
  }

  lemma RepresentsTransitive(A: seq<Snap>, B: seq<Snap>, C: seq<Snap>)
    requires Represents(B, A) && Represents(C, B)
    ensures Represents(C, A)
  {
    forall s | s in A ensures exists t :: t in C && t.facts.kind == s.facts.kind && Holds(t, s) {
      var u :| u in B && u.facts.kind == s.facts.kind && Holds(u, s);
      var t :| t in C && t.facts.kind == u.facts.kind && Holds(t, u);
    }
  }

  lemma ExtensionRepresents(L: seq<Snap>, M: seq<Snap>)
    requires Extends(L, M)
    ensures Represents(M, L)
  {
    forall s | s in L ensures exists t :: t in M && t.facts.kind == s.facts.kind && Holds(t, s) {
      var i :| 0 <= i < |L| && L[i] == s;
      assert M[i] in M;
    }
  }

  ghost predicate Unlinked(L: seq<Snap>) {
    forall s :: s in L ==> s.body.links == map[]
  }

  lemma DedupFacts(L: seq<Snap>, base: nat)
    requires DistinctIds(L) && Unlinked(L) && Below(L, base)
    ensures DistinctIds(Deduplicated(L)) && Unlinked(Deduplicated(L)) && Below(Deduplicated(L), base)
    ensures Evidence(Refs, Deduplicated(L)) == Evidence(Refs, L)
      && Evidence(Events, Deduplicated(L)) == Evidence(Events, L)
    ensures Represents(Deduplicated(L), L)
  {
    hide Merged, Holds;
    var M := Merged(SameKey, L);
    MergeFacts(SameKey, L, base);
    StableSortCorrect(M, SnapTime, "");
    SameMembers(M, Deduplicated(L));
    DistinctWhenPermuted(M, Deduplicated(L));
  }

  lemma MergeFacts(rule: Rule, L: seq<Snap>, base: nat)
    requires DistinctIds(L) && Unlinked(L) && Below(L, base)
    ensures DistinctIds(Merged(rule, L)) && Unlinked(Merged(rule, L)) && Below(Merged(rule, L), base)
    ensures Evidence(Refs, Merged(rule, L)) == Evidence(Refs, L)
      && Evidence(Events, Merged(rule, L)) == Evidence(Events, L)
    ensures Represents(Merged(rule, L), L)
  {
    hide Merged, Represents;
    MergedKeepsIdentity(rule, L);
    MergeConservesEvidence(rule, L, Refs);
    MergeConservesEvidence(rule, L, Events);
    MergeRepresents(rule, L);
    forall s | s in Merged(rule, L) ensures s.facts.id < base {
      assert s.facts.id in Ids(Merged(rule, L));
    }
  }

  /** Neither merging pass would find anything to merge. */
  ghost predicate Settled(L: seq<Snap>) {
    NoneRelated(SameExecution(EXECUTION_WINDOW), L) && NoneRelated(SameFile(FILE_WINDOW), L)
  }

  /** Dedup and the merging passes drop entries, but no evidence, and leave nothing mergeable. */
  lemma CondensedFacts(L: seq<Snap>, base: nat)
    requires DistinctIds(L) && Unlinked(L) && Below(L, base)
    ensures DistinctIds(Condensed(L)) && Unlinked(Condensed(L)) && Below(Condensed(L), base)
    ensures Evidence(Refs, Condensed(L)) == Evidence(Refs, L) && Evidence(Events, Condensed(L)) == Evidence(Events, L)
    ensures Represents(Condensed(L), L)
    ensures Settled(Condensed(L))
  {
    hide Merged, Deduplicated, DistinctIds, Unlinked, Below, Evidence, Represents;
    var D := Deduplicated(L);
    var E := Merged(SameExecution(EXECUTION_WINDOW), D);
    DedupFacts(L, base);
    MergeFacts(SameExecution(EXECUTION_WINDOW), D, base);
    MergeFacts(SameFile(FILE_WINDOW), E, base);
    RepresentsTransitive(L, D, E);
    RepresentsTransitive(L, E, Condensed(L));
    MergedIsIndependent(SameExecution(EXECUTION_WINDOW), D);
    MergeKeepsUnrelated(SameFile(FILE_WINDOW), SameExecution(EXECUTION_WINDOW), E);
    MergedIsIndependent(SameFile(FILE_WINDOW), E);
  }

  // ---- the passes that extend the list -------------------------------------------------

  lemma RegistryExtends(L: seq<Snap>, w: int)
    requires DistinctIds(L) && LinksResolve(L)
    ensures Extends(L, Registry.Correlated(L, w))
  {
    hide Registry.Spread, Carried;
    var M := Registry.Correlated(L, w);
    EntriesFit(L);
    forall i | 0 <= i < |L|
      ensures M[i].facts == L[i].facts && Holds(M[i], L[i]) && Fits(M[i], HoldingsOf(L))
    {
      RegistryEntry(L, w, i);
    }
    ExtendsWhen(L, M);
  }

  lemma RegistryEntry(L: seq<Snap>, w: int, i: nat)
    requires i < |L| && LinksResolve(L)
    ensures var s := Registry.Correlated(L, w)[i];
      s.facts == L[i].facts && Holds(s, L[i]) && Fits(s, HoldingsOf(L))
  {
    hide Registry.Spread;
    var s := Registry.Correlated(L, w)[i];
    Registry.SpreadFacts(L, w, i, |L|);
    forall r | r in Elems(L[i].body.refs) ensures r in Elems(s.body.refs) { RegistryHolds(L, w, i, Refs, r); }
    forall r | r in Elems(L[i].body.events) ensures r in Elems(s.body.events) { RegistryHolds(L, w, i, Events, r); }
    forall r | r in Elems(s.body.refs) ensures r in Evidence(Refs, L) { RegistryInvents(L, w, i, Refs, r); }
    forall r | r in Elems(s.body.events) ensures r in Evidence(Events, L) { RegistryInvents(L, w, i, Events, r); }
    assert L[i] in L;
  }

  lemma RegistryHolds(L: seq<Snap>, w: int, i: nat, c: Channel, r: string)
    requires i < |L| && r in Carried(c, L[i].body)
    ensures r in Carried(c, Registry.Correlated(L, w)[i].body)
  {
    Registry.SpreadSandwich(L, w, c, i, r);
  }

  lemma RegistryInvents(L: seq<Snap>, w: int, i: nat, c: Channel, r: string)
    requires i < |L| && r in Carried(c, Registry.Correlated(L, w)[i].body)
    ensures r in Evidence(c, L)
  {
    Registry.SpreadIsChains(L, w, c, i, r);
  }

  lemma StageExtends(s: Stage, L: seq<Snap>, base: nat)
    requires StageOk(s) && DistinctIds(L) && LinksResolve(L) && Below(L, base)
    ensures Extends(L, RunStage(s, L, base))
    ensures Below(RunStage(s, L, base), base + |RunStage(s, L, base)| - |L|)
  {
    hide RunPass, Registry.Correlated;
    match s
    case Table(p) =>
      PassExtends(p, L, base);
      assert |RunPass(p, L, base)| == |L| + |NewUpTo(p, L, |L|, base)| by { PassLength(p, L, base); }
    case RegistryStage(w) =>
      RegistryExtends(L, w);
      var M := Registry.Correlated(L, w);
      assert |M| == |L| by { RegistryLength(L, w); }
      forall x | x in M ensures x.facts.id < base {
        var i :| 0 <= i < |M| && M[i] == x;
        assert x.facts == L[i].facts && L[i] in L;
      }
  }

  lemma PassLength(p: Pass, L: seq<Snap>, base: nat)
    ensures |RunPass(p, L, base)| == |L| + |NewUpTo(p, L, |L|, base)|
  {}

  lemma RegistryLength(L: seq<Snap>, w: int)
    ensures |Registry.Correlated(L, w)| == |L|
  {}

  lemma {:induction false} StagesExtend(stages: seq<Stage>, k: nat, L: seq<Snap>, base: nat)
    requires k <= |stages| && forall s :: s in stages ==> StageOk(s)
    requires DistinctIds(L) && LinksResolve(L) && Below(L, base)
    ensures Extends(L, RunStages(stages, k, L, base))
    ensures Below(RunStages(stages, k, L, base), IdsAfter(base, L, RunStages(stages, k, L, base)))
  {
    hide StageOk, RunStage;
    if k == 0 {
      ExtendsReflexive(L);
    } else {
      StagesExtend(stages, k - 1, L, base);
      var before := RunStages(stages, k - 1, L, base);
      StageExtends(stages[k - 1], before, IdsAfter(base, L, before));
      ExtendsTransitive(L, before, RunStages(stages, k, L, base));
    }
  }

  /** Evidence conservation and no dangling references, over the whole pipeline and for any
      sequence of extending passes: the references and events of the final list are those of the
      input, every input entry is represented by a final entry of its kind holding all of its
      evidence, and every id stored as a cross-reference belongs to the final list. */
  lemma PipelineConserves(stages: seq<Stage>, L: seq<Snap>, base: nat)
    requires forall s :: s in stages ==> StageOk(s)
    requires DistinctIds(L) && Unlinked(L) && Below(L, base)
    ensures var F := Analysed(stages, L, base);
      && Evidence(Refs, F) == Evidence(Refs, L) && Evidence(Events, F) == Evidence(Events, L)
      && Represents(F, L) && DistinctIds(F) && LinksResolve(F)
  {
    hide Condensed, DistinctIds, Below, Evidence, Represents, StageOk;
    CondensedFacts(L, base);
    var C := Condensed(L);
    assert LinksResolve(C);
    StagesExtend(stages, |stages|, C, base);
    ExtensionRepresents(C, Analysed(stages, L, base));
    RepresentsTransitive(L, C, Analysed(stages, L, base));
  }

  /** Whatever `after` has beyond `before` is of no kind that a merging pass looks at. */
  ghost predicate AddsNothingMergeable(before: seq<Snap>, after: seq<Snap>) {
    |before| <= |after| && NotMergeable(after[|before|..])
  }

  ghost predicate StageNotMergeable(s: Stage) {
    s.Table? ==> NewKinds(s.pass)
  }

  lemma SettledStays(before: seq<Snap>, after: seq<Snap>)
    requires Extends(before, after) && AddsNothingMergeable(before, after) && Settled(before)
    ensures Settled(after)
  {
    Unrelated(before, after, SameExecution(EXECUTION_WINDOW));
    Unrelated(before, after, SameFile(FILE_WINDOW));
  }

  lemma Unrelated(before: seq<Snap>, after: seq<Snap>, rule: Rule)
    requires Extends(before, after) && AddsNothingMergeable(before, after) && !rule.SameKey?
      && NoneRelated(rule, before)
    ensures NoneRelated(rule, after)
  {
    hide SameExecutionFacts, SameFileFacts;
    forall i, j | 0 <= i < j < |after| ensures !Related(rule, after[i], after[j]) {
      if j < |before| {
        assert !Related(rule, before[i], before[j]);
      } else {
        assert after[j] == after[|before|..][j - |before|];
        if Related(rule, after[i], after[j]) { RelatedKinds(rule, after[i], after[j]); }
      }
    }
  }

  lemma RelatedKinds(rule: Rule, x: Snap, y: Snap)
    requires !rule.SameKey? && Related(rule, x, y)
    ensures y.facts.kind in MERGED_KINDS
  {}

  lemma {:induction false} StagesKeepSettled(stages: seq<Stage>, k: nat, L: seq<Snap>, base: nat)
    requires k <= |stages| && forall s :: s in stages ==> StageOk(s) && StageNotMergeable(s)
    requires DistinctIds(L) && LinksResolve(L) && Below(L, base) && Settled(L)
    ensures Settled(RunStages(stages, k, L, base))
  {
    hide StageOk, RunStage, Settled, StageNotMergeable;
    if k > 0 {
      StagesExtend(stages, k - 1, L, base);
      StagesKeepSettled(stages, k - 1, L, base);
      var before := RunStages(stages, k - 1, L, base);
      StageExtends(stages[k - 1], before, IdsAfter(base, L, before));
      StageAddsNothingMergeable(stages[k - 1], before, IdsAfter(base, L, before));
      SettledStays(before, RunStages(stages, k, L, base));
    }
  }

  lemma StageAddsNothingMergeable(s: Stage, L: seq<Snap>, base: nat)
    requires StageNotMergeable(s)
    ensures AddsNothingMergeable(L, RunStage(s, L, base))
  {
    hide NewUpTo, ItemAfter, Registry.Spread;
    match s
    case Table(p) =>
      NewUpToKinds(p, L, |L|, base);
      assert RunPass(p, L, base)[|L|..] == NewUpTo(p, L, |L|, base);
    case RegistryStage(_) =>
  }

  /** What the merging passes achieve lasts: in the final list there is still nothing to merge. */
  lemma FinalIsSettled(stages: seq<Stage>, L: seq<Snap>, base: nat)
    requires forall s :: s in stages ==> StageOk(s) && StageNotMergeable(s)
    requires DistinctIds(L) && Unlinked(L) && Below(L, base)
    ensures Settled(Analysed(stages, L, base))
  {
    hide Condensed, DistinctIds, Below, StageOk, StageNotMergeable, Settled;
    CondensedFacts(L, base);
    StagesKeepSettled(stages, |stages|, Condensed(L), base);
  }

  /** Passes outside this model may run anywhere among the others: as long as every step from one
      list to the next extends it, the conclusion is the same. */
  lemma {:induction false} AnyExtensionsConserve(L: seq<Snap>, base: nat, lists: seq<seq<Snap>>)
    requires DistinctIds(L) && Unlinked(L) && Below(L, base)
    requires lists != [] && forall k :: 0 <= k < |lists| - 1 ==> Extends(lists[k], lists[k + 1])
    ensures var F := lists[|lists| - 1];
      lists[0] == Condensed(L) ==>
      && Evidence(Refs, F) == Evidence(Refs, L) && Evidence(Events, F) == Evidence(Events, L)
      && Represents(F, L) && DistinctIds(F) && LinksResolve(F)
  {
    hide Condensed, Evidence, Represents, DistinctIds, Below;
    var F := lists[|lists| - 1];
    if |lists| == 1 {
      CondensedFacts(L, base);
    } else if lists[0] == Condensed(L) {
      var front := lists[..|lists| - 1];
      AnyExtensionsConserve(L, base, front);
      assert Extends(lists[|lists| - 2], lists[|lists| - 2 + 1]);
      ExtensionRepresents(lists[|lists| - 2], F);
      RepresentsTransitive(L, lists[|lists| - 2], F);
    }
  }

  /** The timeline lists every entry once, ordered by timestamp text, equal texts in list order. */
  lemma TimelineIsStable(L: seq<Snap>, t: string)
    ensures multiset(Timeline(L)) == multiset(L)
    ensures SortedByKey(Timeline(L), SnapTime)
    ensures WithKey(Timeline(L), SnapTime, t) == WithKey(L, SnapTime, t)
    ensures Timeline(Timeline(L)) == Timeline(L)
  {
    hide StableSort;
    StableSortCorrect(L, SnapTime, t);
    StableSortCorrect(Timeline(L), SnapTime, t);
  }

  // ---- as it runs ------------------------------------------------------------------------

  /** What every list in the second half satisfies. */
  ghost predicate Sound(L: seq<Snap>, base: nat) {
    DistinctIds(L) && LinksResolve(L) && Below(L, base)
  }

  lemma SoundObjects(s: seq<Activity>, base: nat)
    requires Sound(Views(s), base)
    ensures DistinctActivities(s)
  {
    forall i, j | 0 <= i < j < |s| ensures s[i].facts.id != s[j].facts.id {
      assert Views(s)[i].facts.id != Views(s)[j].facts.id;
    }
  }

  /** One pass of the second half. */
  method ApplyStage(stage: Stage, activities: seq<Activity>, nextId: nat) returns (all: seq<Activity>, nextId': nat)
    requires StageOk(stage) && Sound(Views(activities), nextId)
    modifies activities
    ensures Views(all) == RunStage(stage, old(Views(activities)), nextId)
    ensures nextId' == nextId + |all| - |activities| && |activities| <= |all|
    ensures Sound(Views(all), nextId')
    ensures forall k :: 0 <= k < |all| ==> all[k] in activities || fresh(all[k])
  {
    hide RunPass, Registry.Correlated, DistinctIds, LinksResolve, Below;
    ghost var L := Views(activities);
    SoundObjects(activities, nextId);
    StageExtends(stage, L, nextId);
    match stage
    case Table(p) =>
      if p.finder.Scan? {
        all, nextId' := Correlate(p, activities, nextId);
      } else {
        all, nextId' := Usb.CorrelateByTables(p, activities, nextId);
      }
    case RegistryStage(w) =>
      all := Registry.CorrelateRegistry(activities, w);
      nextId' := nextId;
      RegistryLength(L, w);
  }

  /** `build_case_semi_auto_analysis`, from the generated activities to the final list. */
  method BuildAnalysis(stages: seq<Stage>, generated: seq<Activity>, nextId: nat)
    returns (activities: seq<Activity>, next: nat)
    requires forall s :: s in stages ==> StageOk(s)
    requires DistinctActivities(generated)
    requires forall k :: 0 <= k < |generated| ==> generated[k].facts.id < nextId && generated[k].links == map[]
    modifies generated
    ensures Views(activities) == Analysed(stages, old(Views(generated)), nextId)
    ensures next == IdsAfter(nextId, Condensed(old(Views(generated))), Views(activities))
    ensures Sound(Views(activities), next)
    ensures forall n :: 0 <= n < |activities| ==> activities[n] in generated || fresh(activities[n])
  {
    hide StageOk, Condensed, RunStage, Sound;
    ghost var L := Views(generated);
    assert DistinctIds(L) && Unlinked(L) && Below(L, nextId);
    var condensed := Condense(generated);
    ghost var C := Condensed(L);
    CondensedIsSound(L, nextId);
    activities := condensed;
    next := nextId;
    for k := 0 to |stages|
      invariant Views(activities) == RunStages(stages, k, C, nextId)
      invariant next == IdsAfter(nextId, C, Views(activities)) && |C| <= |activities|
      invariant Sound(Views(activities), next)
      invariant forall n :: 0 <= n < |activities| ==> activities[n] in generated || fresh(activities[n])
    {
      activities, next := ApplyStage(stages[k], activities, next);
    }
  }

  /** The three passes that drop entries. */
  method Condense(generated: seq<Activity>) returns (kept: seq<Activity>)
    requires DistinctActivities(generated)
    modifies generated
    ensures Views(kept) == Condensed(old(Views(generated)))
    ensures forall k :: 0 <= k < |kept| ==> kept[k] in generated
  {
    hide Deduplicated, Merged;
    var deduplicated := Deduplicate(generated);
    var executions := MergeSources(SameExecution(EXECUTION_WINDOW), deduplicated);
    kept := MergeSources(SameFile(FILE_WINDOW), executions);
  }

  lemma CondensedIsSound(L: seq<Snap>, base: nat)
    requires DistinctIds(L) && Unlinked(L) && Below(L, base)
    ensures Sound(Condensed(L), base)
  {
    hide Condensed, DistinctIds, Below;
    CondensedFacts(L, base);
  }
}
