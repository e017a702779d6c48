/** The order in which the analysis runs its passes, and what holds of the whole run. */
module PassOrder {
  import opened Activities
  import opened Growth
  import opened Derivations
  import opened TablePasses
  import opened CorrelatePass
  import opened Pipeline
  import opened StandardPasses
  import opened WindowsPasses
  import opened WindowsResults
  import opened Usb
  import opened Bits

  /** Path handling and command inspection, as functions of the facts that no pass changes. */
  datatype Readers = Readers(
    paths: Facts -> seq<string>,       // normalised entries of a command's path list
    drivesIn: Facts -> seq<string>,    // candidate drives
    copies: Facts -> bool,             // the command looks like a copy or archive
    lacksContent: Facts -> bool,       // a recycled file without its content file
    parentOf: Facts -> string,         // Windows parent of the file path
    folderOf: Facts -> string,         // folder of a jump-list target
    texts: Texts)                      // what the transfer job pass reads besides

  /** The tables before the removable-device pass, in order of running. */
  function EarlyTables(r: Readers): seq<Pass> {
    [BrowserPass(), PowershellPass(r.paths), ArtifactsPass(), SrumPass(), TasksPass(), RecyclePass(r.lacksContent),
     ShellbagsPass(r.parentOf), JumplistsPass(r.folderOf)]
  }

  function AsStages(tables: seq<Pass>): seq<Stage> {
    seq(|tables|, k requires 0 <= k < |tables| => Table(tables[k]))
  }

  /** The passes after the merging ones, up to the one for removable devices. */
  function EarlyStages(r: Readers): seq<Stage> {
    [Table(LnkPass()), RegistryStage(1800)] + AsStages(EarlyTables(r)) + [Table(UsbPass(r.drivesIn, r.copies))]
  }

  lemma EarlyTablesSeparate(r: Readers)
    ensures forall p :: p in EarlyTables(r) ==> Separate(p) && Plain(p)
  {
    hide Separate, Plain;
    hide BrowserPass, PowershellPass, ArtifactsPass, SrumPass, TasksPass, RecyclePass, ShellbagsPass, JumplistsPass;
    BrowserSeparate();
    PowershellSeparate(r.paths);
    ArtifactsSeparate();
    SrumSeparate();
    TasksSeparate();
    RecycleSeparate(r.lacksContent);
    ShellbagsSeparate(r.parentOf);
    JumplistsSeparate(r.folderOf);
  }

  lemma EarlyStagesOk(r: Readers)
    ensures forall s :: s in EarlyStages(r) ==> StageOk(s) && StageNotMergeable(s)
  {
    hide Separate, NewKinds, EarlyTables, LnkPass, UsbPass;
    EarlyTablesSeparate(r);
    LnkSeparate();
    UsbSeparate(r.drivesIn, r.copies);
    UsbShape(r.drivesIn, r.copies);
    UsbNewKinds(r.drivesIn, r.copies);
    forall s | s in AsStages(EarlyTables(r)) ensures StageOk(s) && StageNotMergeable(s) {
      var k :| 0 <= k < |EarlyTables(r)| && AsStages(EarlyTables(r))[k] == s;
      assert EarlyTables(r)[k] in EarlyTables(r);
    }
  }

  /** Every match of these passes is on the item's host, as far as both hosts are known. The browser
      and removable-device passes are not among them. */
  lemma HostsRespected(r: Readers)
    ensures RespectsHosts(PowershellPass(r.paths)) && RespectsHosts(SrumPass()) && RespectsHosts(TasksPass())
    ensures RespectsHosts(RecyclePass(r.lacksContent)) && RespectsHosts(ShellbagsPass(r.parentOf))
    ensures RespectsHosts(JumplistsPass(r.folderOf)) && RespectsHosts(DefenderPass())
    ensures RespectsHosts(LnkPass()) && RespectsHosts(ArtifactsPass())
  {
    hide RespectsHosts;
    PowershellHosts(r.paths);
    SrumHosts();
    TasksHosts();
    RecycleHosts(r.lacksContent);
    ShellbagsHosts(r.parentOf);
    JumplistsHosts(r.folderOf);
    DefenderHosts();
    LnkHosts();
    ArtifactsHosts();
  }

  lemma LnkHosts()
    ensures RespectsHosts(LnkPass())
  {
    hide HostsAgree, LnkPathMatch, BaseName;
    assert |LnkPass().slots| == 1;
  }

  lemma ArtifactsHosts()
    ensures RespectsHosts(ArtifactsPass())
  {
    hide HostsAgree, ArtifactDownload, ArtifactFile, ArtifactExecution, ArtifactDetection, ObservedFacts;
    var p := ArtifactsPass();
    assert |p.slots| == 4;
    forall k, f: Facts, y: Snap | 0 <= k < |p.slots| && p.slots[k].matches(f, y) ensures HostsAgree(f, y.facts) {
      ArtifactHosts(f, y.facts);
    }
  }

  lemma ArtifactHosts(f: Facts, g: Facts)
    ensures ArtifactDownload(f, g) || ArtifactFile(f, g) || ArtifactExecution(f, g) ==> HostsAgree(f, g)
    ensures ArtifactDetection(f, g) ==> HostsAgree(f, g)
  {
    hide HostsAgree, SamePathOrName, TimesAgree, Clean, SameText;
  }

  /** What the whole analysis promises of its final list. */
  ghost predicate Conserved(L: seq<Snap>, F: seq<Snap>) {
    && Evidence(Refs, F) == Evidence(Refs, L) && Evidence(Events, F) == Evidence(Events, L)
    && Represents(F, L) && DistinctIds(F) && LinksResolve(F)
  }

  lemma ExtensionConserves(L: seq<Snap>, E: seq<Snap>, M: seq<Snap>)
    requires Conserved(L, E) && Extends(E, M)
    ensures Conserved(L, M)
  {
    hide Represents, Evidence, DistinctIds;
    ExtensionRepresents(E, M);
    RepresentsTransitive(L, E, M);
  }

  /** The list once the pass over transfer jobs, the first of the other components, has run. */
  function AfterJobs(r: Readers, L: seq<Snap>, base: nat): seq<Snap> {
    JobsThrough(EarlyStages(r), r.texts, L, base)
  }

  /** The analysis in the order of its driver: the dropping passes, the passes up to removable
      devices and transfer jobs, then whatever the remaining components make of the list as long as
      they extend it, and the detection pass last. No evidence is lost or invented, every input
      activity is represented and no activity id stored under a key field dangles. If those
      components add nothing mergeable, there is still nothing to merge at the end. */
  lemma AnalysisConserves(r: Readers, L: seq<Snap>, base: nat, M: seq<Snap>, next: nat)
    requires DistinctIds(L) && Unlinked(L) && Below(L, base) && Below(M, next)
    ensures var J := AfterJobs(r, L, base);
      var F := RunPass(DefenderPass(), M, next);
      && Conserved(L, J) && Settled(J)
      && (Extends(J, M) ==> Conserved(L, F))
      && (Extends(J, M) && AddsNothingMergeable(J, M) ==> Settled(F))
  {
    hide AfterJobs, DefenderPass, RunPass, Conserved, Settled, AddsNothingMergeable, Unlinked, DistinctIds, Below;
    JobsConserve(r, L, base);
    var J := AfterJobs(r, L, base);
    if Extends(J, M) {
      ExtensionConserves(L, J, M);
      LastPass(M, next);
      ExtensionConserves(L, M, RunPass(DefenderPass(), M, next));
      if AddsNothingMergeable(J, M) {
        SettledStays(J, M);
        SettledStays(M, RunPass(DefenderPass(), M, next));
      }
    }
  }

  lemma JobsConserve(r: Readers, L: seq<Snap>, base: nat)
    requires DistinctIds(L) && Unlinked(L) && Below(L, base)
    ensures Conserved(L, AfterJobs(r, L, base)) && Settled(AfterJobs(r, L, base))
  {
    hide EarlyStages, StageOk, StageNotMergeable, JobPass, JobAfter, Condensed, RunStages;
    hide Represents, Evidence, Settled, Unlinked, DistinctIds, Conserved, AddsNothingMergeable;
    var E := Analysed(EarlyStages(r), L, base);
    EarlyConserves(r, L, base);
    JobsExtend(r.texts, E, IdsAfter(base, Condensed(L), E));
    ExtensionConserves(L, E, AfterJobs(r, L, base));
    JobsAddNothingMergeable(r.texts, E, IdsAfter(base, Condensed(L), E));
    SettledStays(E, AfterJobs(r, L, base));
  }

  lemma EarlyConserves(r: Readers, L: seq<Snap>, base: nat)
    requires DistinctIds(L) && Unlinked(L) && Below(L, base)
    ensures var E := Analysed(EarlyStages(r), L, base);
      && Conserved(L, E) && Settled(E) && Below(E, IdsAfter(base, Condensed(L), E))
      && DistinctIds(E) && LinksResolve(E)
  {
    hide EarlyStages, StageOk, StageNotMergeable, Condensed, RunStages, Represents, Evidence, Settled, DistinctIds;
    EarlyStagesOk(r);
    PipelineConserves(EarlyStages(r), L, base);
    FinalIsSettled(EarlyStages(r), L, base);
    CondensedFacts(L, base);
    StagesExtend(EarlyStages(r), |EarlyStages(r)|, Condensed(L), base);
  }

  lemma JobsAddNothingMergeable(t: Texts, L: seq<Snap>, base: nat)
    ensures AddsNothingMergeable(L, RunJobs(t, L, base))
  {
    hide JobPass, JobAfter;
    JobKinds(t);
    NewUpToKinds(JobPass(t), L, |L|, base);
    assert RunJobs(t, L, base)[|L|..] == NewUpTo(JobPass(t), L, |L|, base);
  }

  lemma LastPass(M: seq<Snap>, next: nat)
    requires DistinctIds(M) && LinksResolve(M) && Below(M, next)
    ensures var F := RunPass(DefenderPass(), M, next);
      Extends(M, F) && AddsNothingMergeable(M, F)
  {
    hide RunPass, DefenderPass, Separate, NewKinds;
    DefenderSeparate();
    PassExtends(DefenderPass(), M, next);
    StageAddsNothingMergeable(Table(DefenderPass()), M, next);
  }

  // ---- as it runs --------------------------------------------------------------------------

  /** The final list of a run in which the remaining components change nothing. */
  function Finished(r: Readers, L: seq<Snap>, base: nat): seq<Snap> {
    RunThrough(EarlyStages(r), r.texts, DefenderPass(), L, base)
  }

  lemma FinishedConserves(r: Readers, L: seq<Snap>, base: nat)
    requires Generated(L, base)
    ensures Conserved(L, Finished(r, L, base)) && Settled(Finished(r, L, base))
  {
    hide EarlyStages, StageOk, StageNotMergeable, DefenderPass, JobsThrough, Settled, Conserved, Condensed, RunPass;
    EarlyStagesOk(r);
    SoundThrough(EarlyStages(r), r.texts, L, base);
    var J := AfterJobs(r, L, base);
    ExtendsReflexive(J);
    NothingAdded(J);
    AnalysisConserves(r, L, base, J, IdsAfter(base, Condensed(L), J));
  }

  lemma NothingAdded(J: seq<Snap>)
    ensures AddsNothingMergeable(J, J)
  {}

  /** What event routing hands over: distinct ids below the next one, and no cross-references. */
  ghost predicate Generated(L: seq<Snap>, nextId: nat) {
    DistinctIds(L) && Unlinked(L) && Below(L, nextId)
  }

  lemma GeneratedObjects(generated: seq<Activity>, nextId: nat)
    requires Generated(Views(generated), nextId)
    ensures DistinctActivities(generated)
    ensures forall k :: 0 <= k < |generated| ==> generated[k].facts.id < nextId && generated[k].links == map[]
  {
    var L := Views(generated);
    forall i, j | 0 <= i < j < |generated| ensures generated[i].facts.id != generated[j].facts.id {
      assert L[i].facts.id != L[j].facts.id;
    }
    forall k | 0 <= k < |generated| ensures generated[k].facts.id < nextId && generated[k].links == map[] {
      assert L[k] in L;
    }
  }

  /** The order of the driver for any passes: those before transfer jobs, these, and one at the end. */
  method RunPasses(stages: seq<Stage>, t: Texts, last: Pass, generated: seq<Activity>, nextId: nat)
    returns (activities: seq<Activity>)
    requires (forall s :: s in stages ==> StageOk(s)) && Separate(last) && last.finder.Scan?
    requires Generated(Views(generated), nextId)
    modifies generated
    ensures Views(activities) == RunThrough(stages, t, last, old(Views(generated)), nextId)
  {
    hide StageOk, Condensed, Analysed, RunJobs, Sound, Separate, Extends, RunPass;
    ghost var L := Views(generated);
    GeneratedObjects(generated, nextId);
    SoundThrough(stages, t, L, nextId);
    var early, next := BuildAnalysis(stages, generated, nextId);
    SoundObjects(early, next);
    var jobs, next' := CorrelateJobs(t, early, next);
    SoundObjects(jobs, next');
    activities, next' := Correlate(last, jobs, next');
  }

  function JobsThrough(stages: seq<Stage>, t: Texts, L: seq<Snap>, base: nat): seq<Snap> {
    var E := Analysed(stages, L, base);
    RunJobs(t, E, IdsAfter(base, Condensed(L), E))
  }

  function RunThrough(stages: seq<Stage>, t: Texts, last: Pass, L: seq<Snap>, base: nat): seq<Snap> {
    var J := JobsThrough(stages, t, L, base);
    RunPass(last, J, IdsAfter(base, Condensed(L), J))
  }

  lemma SoundThrough(stages: seq<Stage>, t: Texts, L: seq<Snap>, base: nat)
    requires (forall s :: s in stages ==> StageOk(s)) && Generated(L, base)
    ensures var E := Analysed(stages, L, base);
      var J := JobsThrough(stages, t, L, base);
      |Condensed(L)| <= |E| <= |J| && Sound(J, IdsAfter(base, Condensed(L), J))
  {
    hide StageOk, Condensed, RunStages, JobPass, JobAfter, Evidence, Below, DistinctIds, LinksResolve;
    CondensedIsSound(L, base);
    StagesExtend(stages, |stages|, Condensed(L), base);
    var E := Analysed(stages, L, base);
    JobsSound(t, E, IdsAfter(base, Condensed(L), E));
  }

  lemma JobsSound(t: Texts, E: seq<Snap>, next: nat)
    requires Sound(E, next)
    ensures var J := RunJobs(t, E, next);
      |E| <= |J| && Sound(J, next + |J| - |E|)
  {
    hide JobPass, JobAfter, Evidence;
    JobsExtend(t, E, next);
  }
}
