/** The list that the whole analysis ends with, said on the recorded facts of the condensed one: every
    pass runs, in its place, and reports what is due. */
module Analysis {
  import opened Text
  import opened Activities
  import opened Greedy
  import opened Provenance
  import opened Growth
  import opened TablePasses
  import opened Derivations
  import opened Kinds
  import opened Findings
  import opened Pipeline
  import opened StandardPasses
  import opened WindowsPasses
  import WindowsResults
  import opened Usb
  import opened Bits
  import opened RegistryScope
  import opened PassFindings
  import opened DriveFindings
  import opened PassOrder
  import Registry

  // ---- shortcut files and persistence entries ---------------------------------------------

  /** An execution and an access, within half an hour, to the file that it ran. */
  predicate Shortcut(f: Facts, g: Facts) {
    && f.kind in RUN_KINDS && g.kind in {"opened_file", "script_opened"}
    && Provenance.Apart(f, g, 1800) && OneHost(f, g)
    && ((Read(g, "file_path") != ""
         && (Read(g, "file_path") == Read(f, "process_path")
             || Contains(Read(f, "command_line"), Read(g, "file_path"))))
        || Same(Normalized(BaseName(Read(g, "file_path"))), Read(f, "process_name")))
  }

  lemma ShortcutIff(f: Facts, g: Facts)
    ensures Shortcut(f, g) <==>
      f.kind in EXECUTION_KINDS && g.kind in FILE_ACCESS_KINDS && LnkMatches(f, g, 1800)
  {
    hide Normalized, Field, Contains, BaseName, HostText;
    AroundIff(f, g, 1800);
  }

  /** The entries of `C` with what shortcut files and registry entries bring: an execution holds the
      evidence of its shortcut files, a persistence entry that of what it started, with their
      shortcut files. */
  ghost predicate Gathers(B: seq<Snap>, C: seq<Snap>) {
    && |B| == |C|
    && (forall i: nat :: i < |C| ==> B[i].facts == C[i].facts && Holds(B[i], C[i]))
    && (forall i: nat, j: nat :: i < |C| && j < |C| && Shortcut(C[i].facts, C[j].facts) ==> Holds(B[i], C[j]))
    && (forall i: nat, j: nat :: i < |C| && j < |C| && Starts(C[i].facts, C[j].facts) ==> Holds(B[i], C[j]))
    && forall i: nat, j: nat, k: nat ::
         i < |C| && j < |C| && k < |C| && Starts(C[i].facts, C[j].facts) && Shortcut(C[j].facts, C[k].facts)
         ==> Holds(B[i], C[k])
  }

  /** A slot that takes all matches finds every hit. */
  lemma {:induction false} AllFound(s: Slot, f: Facts, L: seq<Snap>, n: nat, j: nat)
    requires n <= |L| && j < n && s.mode.All? && Hits(s, f, L[j])
    ensures L[j] in FoundUpTo(s, f, L, n)
  {
    if j < n - 1 { AllFound(s, f, L, n - 1, j); }
  }

  lemma LnkShape()
    ensures var p := LnkPass();
      && p.finder == Scan && |p.slots| == 1 && p.slots[0].mode == All && p.slots[0].unless.None?
      && p.slots[0].derive == []
      && (forall f: Facts :: p.selects(f) <==> f.kind in EXECUTION_KINDS)
      && forall f: Facts, y: Snap ::
           Hits(p.slots[0], f, y) <==> y.facts.kind in FILE_ACCESS_KINDS && LnkMatches(f, y.facts, 1800)
  {
    hide LnkMatches, LnkPathMatch, LnkNotes;
  }

  lemma ExecutionHoldsShortcuts(L: seq<Snap>, i: nat, j: nat)
    requires i < |L| && j < |L| && Shortcut(L[i].facts, L[j].facts)
    ensures Holds(ItemAfter(LnkPass(), L, i), L[j])
  {
    hide LnkPass, Shortcut, LnkMatches, EnrichAll, FoundUpTo;
    var p, f := LnkPass(), L[i].facts;
    LnkShape();
    ShortcutIff(f, L[j].facts);
    var s := p.slots[0];
    assert Hits(s, f, L[j]);
    AllFound(s, f, L, |L|, j);
    var found := Matched(p, f, L);
    assert found[0] == FoundUpTo(s, f, L, |L|);
    EnrichAllTakes(s, L[i], found[0], L[j]);
    OneSlot(p.slots, L[i], found, 0);
    CloseHolds(p, EnrichAll(s, L[i], found[0]), L[j]);
  }

  lemma OneSlot(slots: seq<Slot>, x: Snap, found: seq<seq<Snap>>, base: nat)
    requires |slots| == |found| == 1 && slots[0].derive == []
    ensures AfterSlots(slots, 1, x, found, base) == Outcome(EnrichAll(slots[0], x, found[0]), [])
  {
    hide EnrichAll;
    assert AfterSlots(slots, 0, x, found, base) == Outcome(x, []);
    DerivesNothing(EnrichAll(slots[0], x, found[0]), found, base);
  }

  lemma {:induction false} NothingNew(p: Pass, L: seq<Snap>, n: nat, base: nat)
    requires n <= |L| && |p.slots| == 1 && p.slots[0].derive == []
    ensures NewUpTo(p, L, n, base) == []
  {
    hide Matched, EnrichAll;
    if n > 0 {
      NothingNew(p, L, n - 1, base);
      if p.selects(L[n - 1].facts) { OneSlot(p.slots, L[n - 1], Matched(p, L[n - 1].facts, L), base); }
    }
  }

  /** The shortcut and registry passes together. */
  function AfterRegistry(C: seq<Snap>, base: nat): seq<Snap> {
    Registry.Correlated(RunPass(LnkPass(), C, base), 1800)
  }

  lemma TakerHolds(L: seq<Snap>, i: nat, j: nat)
    requires i < |L| && j < |L| && Starts(L[i].facts, L[j].facts)
    ensures i < |Registry.Correlated(L, 1800)| && Holds(Registry.Correlated(L, 1800)[i], L[j])
  {
    hide Starts, Registry.Correlated;
    RegistryLength(L, 1800);
    var b := Registry.Correlated(L, 1800)[i].body;
    forall r | r in Elems(L[j].body.refs) ensures r in Elems(b.refs) {
      RegistryOnFacts(L, Refs, i, r);
      assert r in Carried(Refs, L[j].body);
    }
    forall r | r in Elems(L[j].body.events) ensures r in Elems(b.events) {
      RegistryOnFacts(L, Events, i, r);
      assert r in Carried(Events, L[j].body);
    }
  }

  lemma AfterLnk(C: seq<Snap>, base: nat)
    requires DistinctIds(C) && LinksResolve(C) && Below(C, base)
    ensures var E := RunPass(LnkPass(), C, base);
      && |E| == |C| && Extends(C, E)
      && forall i: nat, j: nat :: i < |C| && j < |C| && Shortcut(C[i].facts, C[j].facts) ==> Holds(E[i], C[j])
  {
    hide LnkPass, ItemAfter, Shortcut, Extends, Holds, DistinctIds, LinksResolve;
    PassExtends(LnkPass(), C, base);
    LnkShape();
    NothingNew(LnkPass(), C, |C|, base);
    forall i: nat, j: nat | i < |C| && j < |C| && Shortcut(C[i].facts, C[j].facts)
      ensures Holds(RunPass(LnkPass(), C, base)[i], C[j])
    {
      ExecutionHoldsShortcuts(C, i, j);
    }
  }

  lemma Gathered(C: seq<Snap>, E: seq<Snap>, B: seq<Snap>)
    requires |C| == |E| == |B| && Extends(C, E) && Extends(E, B)
    requires forall i: nat, j: nat :: i < |C| && j < |C| && Shortcut(C[i].facts, C[j].facts) ==> Holds(E[i], C[j])
    requires forall i: nat, j: nat :: i < |C| && j < |C| && Starts(E[i].facts, E[j].facts) ==> Holds(B[i], E[j])
    ensures Gathers(B, C)
  {
    hide Starts, Shortcut, Evidence, DistinctIds, LinksResolve;
  }

  lemma RegistryGathers(C: seq<Snap>, base: nat)
    requires DistinctIds(C) && LinksResolve(C) && Below(C, base)
    ensures Gathers(AfterRegistry(C, base), C)
  {
    hide RunPass, LnkPass, Registry.Correlated, Starts, Shortcut, Evidence, DistinctIds, LinksResolve, Holds, Gathers;
    AfterLnk(C, base);
    var E, B := RunPass(LnkPass(), C, base), AfterRegistry(C, base);
    RegistryExtends(E, 1800);
    RegistryLength(E, 1800);
    forall i: nat, j: nat | i < |C| && j < |C| && Starts(E[i].facts, E[j].facts) ensures Holds(B[i], E[j]) {
      TakerHolds(E, i, j);
    }
    Gathered(C, E, B);
  }

  // ---- transfer jobs ------------------------------------------------

  lemma JobsMake(t: Texts)
    ensures Makes(JobPass(t), 10)
  {
    hide Place, JobDownload, JobCreation, JobDetection, JobExecution, JobMention, JobShell, DerivedFacts;
    Kinds.JobKinds();
    JobRecipes(t);
    assert |JobPass(t).slots| == 6;
  }

  lemma JobsLinkless(t: Texts)
    ensures forall k :: 0 <= k < |JobPass(t).slots| ==> JobPass(t).slots[k].link.None?
    ensures ShellSlot().link.None?
  {
    hide JobDownload, JobCreation, JobDetection, JobExecution, JobMention, JobShell, ExecutedJob, DetectedJob;
    assert |JobPass(t).slots| == 6;
  }

  lemma {:induction false} JobKeepsLinks(t: Texts, L: seq<Snap>, j: nat, n: nat)
    requires j < |L| && n <= |L| && Place(L[j].facts.kind) > 0
    ensures JobAfter(t, L, j, n).body.links == L[j].body.links
  {
    hide JobPass, ShellSlot, Belongs, IsJob, Place, ItemAfter, Enrich, FoundUpTo;
    JobsLinkless(t);
    if n == 0 {
      ItemKeepsLinks(JobPass(t), L, j);
    } else {
      JobKeepsLinks(t, L, j, n - 1);
      var shell := FoundUpTo(ShellSlot(), L[n - 1].facts, L, |L|);
      if shell != [] { OneKeepsLinks(ShellSlot(), JobAfter(t, L, j, n - 1), shell[0]); }
    }
  }

  lemma OneKeepsLinks(s: Slot, x: Snap, y: Snap)
    requires s.link.None?
    ensures Enrich(s, x, y).body.links == x.body.links
  {}

  lemma JobsStep(t: Texts, L: seq<Snap>, base: nat, n: nat, k: nat)
    requires DistinctIds(L) && LinksResolve(L) && Below(L, base) && InPlaces(L, n, k)
    ensures Step(L, RunJobs(t, L, base), n, 10)
  {
    hide Place, Makes, Extends, DistinctIds, LinksResolve, JobPass, JobAfter, NewUpTo;
    JobsExtend(t, L, base);
    JobsMake(t);
    var M := RunJobs(t, L, base);
    forall q: nat | n <= q < |L| ensures M[q].body.links == L[q].body.links {
      assert 0 < Place(L[q].facts.kind);
      JobKeepsLinks(t, L, q, |L|);
    }
    NewPlaces(JobPass(t), L, |L|, base, 10);
    forall q: nat | |L| <= q < |M| ensures Place(M[q].facts.kind) == 10 {
      assert M[q] == NewUpTo(JobPass(t), L, |L|, base)[q - |L|];
    }
  }

  // ---- the lists of the run ---------------------------------------------------------------

  lemma PassesStage(r: Readers)
    ensures |EarlyStages(r)| == 11
    ensures EarlyStages(r)[0] == Table(LnkPass()) && EarlyStages(r)[1] == RegistryStage(1800)
    ensures forall a: nat :: a < 9 ==> EarlyStages(r)[a + 2] == Table(PassesOf(r)[a])
  {
    hide LnkPass, BrowserPass, PowershellPass, ArtifactsPass, SrumPass, TasksPass, RecyclePass, ShellbagsPass,
      JumplistsPass, UsbPass;
  }

  /** The passes that derive, in the order of the places of what they derive. */
  function PassesOf(r: Readers): (passes: seq<Pass>)
    ensures |passes| == 9
  {
    EarlyTables(r) + [UsbPass(r.drivesIn, r.copies)]
  }

  lemma PassMakes(r: Readers, a: nat)
    requires a < 9
    ensures Makes(PassesOf(r)[a], a + 1) && KeepsLinks(PassesOf(r)[a])
  {
    hide Makes, KeepsLinks;
    hide BrowserPass, PowershellPass, ArtifactsPass, SrumPass, TasksPass, RecyclePass, ShellbagsPass, JumplistsPass,
      UsbPass;
    BrowserStep();
    PowershellStep(r.paths);
    ArtifactsStep();
    SrumStep();
    TasksStep();
    RecycleStep(r.lacksContent);
    ShellbagsStep(r.parentOf);
    JumplistsStep(r.folderOf);
    UsbStep(r.drivesIn, r.copies);
  }

  /** The stages before transfer jobs, what that pass reads, and the last pass. */
  datatype Plan = Plan(stages: seq<Stage>, passes: seq<Pass>, texts: Texts, last: Pass)

  /** Nine passes follow the shortcut and registry passes, and each derives what has its place. */
  ghost predicate Planned(p: Plan) {
    && |p.stages| == 11 && |p.passes| == 9
    && (forall s :: s in p.stages ==> StageOk(s))
    && (forall a: nat :: a < 9 ==> p.stages[a + 2] == Table(p.passes[a]))
    && (forall a: nat :: a < 9 ==> Makes(p.passes[a], a + 1) && KeepsLinks(p.passes[a]))
    && Makes(p.last, 11) && KeepsLinks(p.last)
  }

  /** The lists from the registry pass on to the end. */
  function ListAt(p: Plan, L: seq<Snap>, base: nat, a: nat): seq<Snap>
    requires |p.stages| == 11
  {
    if a < 10 then RunStages(p.stages, a + 2, Condensed(L), base)
    else if a == 10 then JobsThrough(p.stages, p.texts, L, base)
    else RunThrough(p.stages, p.texts, p.last, L, base)
  }

  function Lists(p: Plan, L: seq<Snap>, base: nat, n: nat): (lists: seq<seq<Snap>>)
    requires |p.stages| == 11
    ensures |lists| == n && forall a: nat :: a < n ==> lists[a] == ListAt(p, L, base, a)
  {
    seq(n, a requires 0 <= a < n => ListAt(p, L, base, a))
  }

  /** The next unused id when list `a` is there. */
  function IdsAt(p: Plan, L: seq<Snap>, base: nat, a: nat): nat
    requires |p.stages| == 11
  {
    IdsAfter(base, Condensed(L), ListAt(p, L, base, a))
  }

  lemma ListSound(p: Plan, L: seq<Snap>, base: nat, a: nat)
    requires a < 11 && Generated(L, base) && |p.stages| == 11 && forall s :: s in p.stages ==> StageOk(s)
    ensures Sound(ListAt(p, L, base, a), IdsAt(p, L, base, a))
  {
    hide StageOk, Condensed, RunStages, RunJobs, DistinctIds, LinksResolve, Below, Evidence, Holds;
    CondensedIsSound(L, base);
    if a < 10 {
      StagesExtend(p.stages, a + 2, Condensed(L), base);
    } else {
      SoundThrough(p.stages, p.texts, L, base);
    }
  }

  lemma NextList(p: Plan, L: seq<Snap>, base: nat, a: nat)
    requires a < 11 && Planned(p)
    ensures var M, next := ListAt(p, L, base, a), IdsAt(p, L, base, a);
      ListAt(p, L, base, a + 1) ==
        if a < 9 then RunPass(p.passes[a], M, next)
        else if a == 9 then RunJobs(p.texts, M, next)
        else RunPass(p.last, M, next)
  {
    hide Condensed, RunPass, RunJobs, StageOk, Makes, KeepsLinks;
    if a < 9 { assert p.stages[a + 2] == Table(p.passes[a]); }
  }

  lemma ListStep(p: Plan, L: seq<Snap>, base: nat, a: nat, n: nat)
    requires a < 11 && Generated(L, base) && Planned(p) && InPlaces(ListAt(p, L, base, a), n, a)
    ensures Step(ListAt(p, L, base, a), ListAt(p, L, base, a + 1), n, a + 1)
  {
    hide ListAt, RunPass, RunJobs, Generated, Makes, KeepsLinks, InPlaces, Step, DistinctIds,
      LinksResolve, StageOk;
    var M, next := ListAt(p, L, base, a), IdsAt(p, L, base, a);
    ListSound(p, L, base, a);
    NextList(p, L, base, a);
    if a < 9 {
      PassSteps(p.passes[a], M, next, n, a + 1, a);
    } else if a == 9 {
      JobsStep(p.texts, M, next, n, a);
    } else {
      PassSteps(p.last, M, next, n, 11, a);
    }
  }

  lemma {:induction false} ListsSteady(p: Plan, L: seq<Snap>, base: nat, n: nat)
    requires 0 < n <= 12 && Generated(L, base) && Planned(p)
    ensures Steady(Lists(p, L, base, n))
  {
    hide ListAt, Generated, InPlaces, Step, DistinctIds, LinksResolve, StageOk, Makes, KeepsLinks;
    if n == 1 {
      ListSound(p, L, base, 0);
    } else {
      ListsSteady(p, L, base, n - 1);
      RunInPlaces(Lists(p, L, base, n - 1), n - 2);
      var start := |ListAt(p, L, base, 0)|;
      ListStep(p, L, base, n - 2, start);
      forall k: nat | k < n - 1 ensures Step(ListAt(p, L, base, k), ListAt(p, L, base, k + 1), start, k + 1) {
        if k < n - 2 { StepAt(Lists(p, L, base, n - 1), k); }
      }
    }
  }

  /** Twelve lists, each but the first grown from the one before by what a pass derives. */
  ghost predicate Course(lists: seq<seq<Snap>>, passes: seq<Pass>, ids: seq<nat>) {
    && |lists| == 12 && |passes| == |ids| == 11 && Steady(lists)
    && forall a: nat :: a < 11 ==> Adds(lists[a], lists[a + 1], passes[a], ids[a])
  }

  lemma CourseOf(p: Plan, L: seq<Snap>, base: nat) returns (lists: seq<seq<Snap>>, passes: seq<Pass>, ids: seq<nat>)
    requires Generated(L, base) && Planned(p)
    ensures Course(lists, passes, ids)
    ensures lists[0] == ListAt(p, L, base, 0) && lists[11] == ListAt(p, L, base, 11)
    ensures passes == p.passes + [JobPass(p.texts), p.last]
  {
    hide ListAt, RunPass, RunJobs, Generated, Steady, Adds, StageOk, Makes, KeepsLinks, JobPass;
    ListsSteady(p, L, base, 12);
    lists, passes := Lists(p, L, base, 12), p.passes + [JobPass(p.texts), p.last];
    ids := seq(11, a requires 0 <= a < 11 => IdsAt(p, L, base, a));
    forall a: nat | a < 11 ensures Adds(lists[a], lists[a + 1], passes[a], ids[a]) {
      NextList(p, L, base, a);
      if a == 9 { JobsAdd(p.texts, lists[a], ids[a]); } else { PassAdds(passes[a], lists[a], ids[a]); }
    }
  }

  lemma {:induction false} JobHoldsItem(t: Texts, L: seq<Snap>, j: nat, n: nat)
    requires j < |L| && n <= |L|
    ensures Holds(JobAfter(t, L, j, n), ItemAfter(JobPass(t), L, j))
  {
    hide JobPass, ShellSlot, Belongs, IsJob, ItemAfter, Enrich, FoundUpTo;
    if n > 0 {
      JobHoldsItem(t, L, j, n - 1);
      var shell := FoundUpTo(ShellSlot(), L[n - 1].facts, L, |L|);
      if shell != [] { EnrichTakes(ShellSlot(), JobAfter(t, L, j, n - 1), shell[0]); }
    }
  }

  lemma JobsAdd(t: Texts, L: seq<Snap>, base: nat)
    ensures Adds(L, RunJobs(t, L, base), JobPass(t), base)
  {
    hide JobPass, JobAfter, NewUpTo, ItemAfter, Holds;
    forall i: nat | i < |L| ensures Holds(JobAfter(t, L, i, |L|), ItemAfter(JobPass(t), L, i)) {
      JobHoldsItem(t, L, i, |L|);
    }
  }

  // ---- what the analysis reports ------------------------------------------------------------

  function PlanOf(r: Readers): Plan {
    Plan(EarlyStages(r), PassesOf(r), r.texts, DefenderPass())
  }

  lemma PlanOfReaders(r: Readers)
    ensures Planned(PlanOf(r))
  {
    hide EarlyStages, PassesOf, StageOk, StageNotMergeable, DefenderPass, Makes, KeepsLinks;
    EarlyStagesOk(r);
    DefenderStep();
    PassesStage(r);
    forall a: nat | a < 9 ensures Makes(PassesOf(r)[a], a + 1) && KeepsLinks(PassesOf(r)[a]) { PassMakes(r, a); }
  }

  lemma FirstAndLast(p: Plan, L: seq<Snap>, base: nat)
    requires Planned(p) && p.stages[0] == Table(LnkPass()) && p.stages[1] == RegistryStage(1800)
    ensures ListAt(p, L, base, 0) == AfterRegistry(Condensed(L), base)
    ensures ListAt(p, L, base, 11) == RunThrough(p.stages, p.texts, p.last, L, base)
  {
    hide Condensed, LnkPass, RunThrough, StageOk, Makes, KeepsLinks, AfterRegistry;
    TwoStages(p.stages, Condensed(L), base);
  }

  lemma TwoStages(stages: seq<Stage>, C: seq<Snap>, base: nat)
    requires |stages| >= 2 && stages[0] == Table(LnkPass()) && stages[1] == RegistryStage(1800)
    ensures RunStages(stages, 2, C, base) == AfterRegistry(C, base)
  {
    hide LnkPass, RunPass, Registry.Correlated;
    assert RunStages(stages, 0, C, base) == C;
    assert RunStages(stages, 1, C, base) == RunPass(LnkPass(), C, base);
  }

  /** What the passes report, each with a kind of its own. */
  function FindingsOf(r: Readers): seq<Finding> {
    [DownloadExecuted(), FetchedByShell(r.paths), DownloadObserved(), DownloadedAndActive(), TaskRan(),
     DownloadPersisted(), DownloadDeleted(), DetectedDeleted(), PersistentDeleted(), DownloadInFolder(r.parentOf),
     OpenedAndDeleted(), OpenedDownload(), TransferDetected()]
    + DetectionFindings()
  }

  function DetectionFindings(): seq<Finding> {
    [DownloadDetected(), ExecutionDetected(), PersistenceDetected(),
     VerdictOn("defender_quarantined_file", {"quarantine"}),
     VerdictOn("defender_remediation_failed", {"failed"}),
     VerdictOn("defender_remediated_threat", {"removed", "cleaned", "remediated"})]
  }

  /** `F` begins with the entries of `C`, grown by what shortcut files and registry entries bring them
      and by their matches, and goes on with exactly the activities that are due on these entries. */
  ghost predicate Complete(F: seq<Snap>, C: seq<Snap>, B: seq<Snap>, findings: seq<Finding>) {
    && Gathers(B, C) && Extends(B, F) && InPlaces(F, |C|, 11)
    && forall d :: d in findings ==> Told(F, B, d) && Shares(F, B, d)
  }

  ghost predicate Told(F: seq<Snap>, B: seq<Snap>, d: Finding) {
    exists at: map<nat, nat> :: Tells(F, |B|, B, |B|, d, at)
  }

  /** Every activity that is due is there. */
  ghost predicate Noted(F: seq<Snap>, B: seq<Snap>, d: Finding) {
    forall i: nat :: i < |B| && Due(B, d, i) ==> exists q: nat :: |B| <= q < |F| && Notes(F[q], B, d, i)
  }

  ghost predicate Reported(r: Readers, L: seq<Snap>, base: nat, F: seq<Snap>) {
    var B := AfterRegistry(Condensed(L), base);
    && Complete(F, Condensed(L), B, FindingsOf(r))
    && Noted(F, B, TransferExecuted(r.texts)) && DrivesNoted(F, B, r.drivesIn, r.copies)
  }

  ghost predicate Both(lists: seq<seq<Snap>>, d: Finding)
    requires |lists| == 12
  {
    Told(lists[11], lists[0], d) && Shares(lists[11], lists[0], d)
  }

  lemma PassTold(lists: seq<seq<Snap>>, passes: seq<Pass>, ids: seq<nat>, a: nat, d: Finding, s: nat, r: Recipe)
    requires Course(lists, passes, ids) && a < 11
    requires Reports(passes[a], d, s, r) && Place(d.kind) == a + 1 && Unplaced(d)
    ensures Both(lists, d)
  {
    hide Derives, Place, Unplaced, Tells, Shares, Steady, Adds;
    var at := RunTells(lists, a, passes[a], ids[a], d, s, r);
    RunShares(lists, a, passes[a], ids[a], d, s, r);
  }

  lemma DownloadsTold(lists: seq<seq<Snap>>, passes: seq<Pass>, ids: seq<nat>, paths: Facts -> seq<string>)
    requires Course(lists, passes, ids) && passes[0] == BrowserPass() && passes[1] == PowershellPass(paths)
    ensures Both(lists, DownloadExecuted()) && Both(lists, FetchedByShell(paths))
  {
    hide Course, Reports, Place, Unplaced, Both, BrowserPass, PowershellPass, DownloadExecuted, FetchedByShell;
    DownloadExecutedReported();
    DownloadExecutedUnplaced();
    PassTold(lists, passes, ids, 0, DownloadExecuted(), 3, ExecutedRecipe());
    FetchedByShellReported(paths);
    PowershellUnplaced(paths);
    PassTold(lists, passes, ids, 1, FetchedByShell(paths), 0, ShellFetch());
  }

  lemma ProgramsTold(lists: seq<seq<Snap>>, passes: seq<Pass>, ids: seq<nat>)
    requires Course(lists, passes, ids) && passes[2] == ArtifactsPass() && passes[3] == SrumPass()
      && passes[4] == TasksPass()
    ensures Both(lists, DownloadObserved()) && Both(lists, DownloadedAndActive())
    ensures Both(lists, TaskRan()) && Both(lists, DownloadPersisted())
  {
    hide Course, Reports, Place, Unplaced, Both, ArtifactsPass, SrumPass, TasksPass, DownloadObserved,
      DownloadedAndActive, TaskRan, DownloadPersisted;
    DownloadObservedReported();
    DownloadObservedUnplaced();
    PassTold(lists, passes, ids, 2, DownloadObserved(), 0, ObservedRecipe());
    DownloadedAndActiveReported();
    SrumUnplaced();
    PassTold(lists, passes, ids, 3, DownloadedAndActive(), 2, NetworkActive());
    TasksUnplaced();
    TaskRanReported();
    PassTold(lists, passes, ids, 4, TaskRan(), 2, TaskRun());
    DownloadPersistedReported();
    PassTold(lists, passes, ids, 4, DownloadPersisted(), 3, TaskPersisted());
  }

  lemma RecycledTold(lists: seq<seq<Snap>>, passes: seq<Pass>, ids: seq<nat>, lacksContent: Facts -> bool)
    requires Course(lists, passes, ids) && passes[5] == RecyclePass(lacksContent)
    ensures Both(lists, DownloadDeleted()) && Both(lists, DetectedDeleted())
    ensures Both(lists, PersistentDeleted())
  {
    hide Course, Reports, Place, Unplaced, Both, RecyclePass, DownloadDeleted, DetectedDeleted, PersistentDeleted;
    RecycleUnplaced();
    DownloadDeletedReported(lacksContent);
    PassTold(lists, passes, ids, 5, DownloadDeleted(), 0, DeletedDownload());
    DetectedDeletedReported(lacksContent);
    PassTold(lists, passes, ids, 5, DetectedDeleted(), 1, DeletedDetected());
    PersistentDeletedReported(lacksContent);
    PassTold(lists, passes, ids, 5, PersistentDeleted(), 4, DeletedPersistent());
  }

  lemma OpenedTold(lists: seq<seq<Snap>>, passes: seq<Pass>, ids: seq<nat>, parentOf: Facts -> string,
                   folderOf: Facts -> string)
    requires Course(lists, passes, ids) && passes[6] == ShellbagsPass(parentOf) && passes[7] == JumplistsPass(folderOf)
    ensures Both(lists, DownloadInFolder(parentOf))
    ensures Both(lists, OpenedAndDeleted()) && Both(lists, OpenedDownload())
  {
    hide Course, Reports, Place, Unplaced, Both, ShellbagsPass, JumplistsPass, DownloadInFolder, OpenedAndDeleted,
      OpenedDownload;
    ShellbagsUnplaced(parentOf);
    DownloadInFolderReported(parentOf);
    PassTold(lists, passes, ids, 6, DownloadInFolder(parentOf), 2, FolderRelated());
    JumplistsUnplaced();
    OpenedAndDeletedReported(folderOf);
    PassTold(lists, passes, ids, 7, OpenedAndDeleted(), 2, DeletedOpened());
    OpenedDownloadReported(folderOf);
    PassTold(lists, passes, ids, 7, OpenedDownload(), 3, DownloadOpened());
  }

  lemma TransfersTold(lists: seq<seq<Snap>>, passes: seq<Pass>, ids: seq<nat>, t: Texts)
    requires Course(lists, passes, ids) && passes[9] == JobPass(t)
    ensures Both(lists, TransferDetected())
  {
    hide Course, Reports, Place, Unplaced, Both, JobPass, TransferDetected;
    TransfersUnplaced(t);
    TransferDetectedReported(t);
    PassTold(lists, passes, ids, 9, TransferDetected(), 3, DetectedJob());
  }

  lemma DetectionsTold(lists: seq<seq<Snap>>, passes: seq<Pass>, ids: seq<nat>)
    requires Course(lists, passes, ids) && passes[10] == DefenderPass()
    ensures forall d :: d in DetectionFindings() ==> Both(lists, d)
  {
    hide Course, Reports, Place, Unplaced, Both, DefenderPass, DownloadDetected, ExecutionDetected, PersistenceDetected,
      VerdictOn;
    DetectionsUnplaced();
    DownloadDetectedReported();
    PassTold(lists, passes, ids, 10, DownloadDetected(), 0, ThreatFetched());
    ExecutionDetectedReported();
    PassTold(lists, passes, ids, 10, ExecutionDetected(), 1, ThreatRun());
    PersistenceDetectedReported();
    PassTold(lists, passes, ids, 10, PersistenceDetected(), 2, ThreatKept());
    VerdictsReported();
    VerdictKindOf("defender_quarantined_file", {"quarantine"});
    VerdictKindOf("defender_remediation_failed", {"failed"});
    VerdictKindOf("defender_remediated_threat", {"removed", "cleaned", "remediated"});
    PassTold(lists, passes, ids, 10, VerdictOn("defender_quarantined_file", {"quarantine"}), 3, Quarantined());
    PassTold(lists, passes, ids, 10, VerdictOn("defender_remediation_failed", {"failed"}), 3, Unremediated());
    PassTold(lists, passes, ids, 10, VerdictOn("defender_remediated_threat", {"removed", "cleaned", "remediated"}), 3,
             Remediated());
  }

  lemma VerdictKindOf(kind: string, words: set<string>)
    ensures VerdictOn(kind, words).kind == kind
  {}

  /** The lists of the analysis, from what the registry pass leaves to the final list. */
  lemma CourseOfAnalysis(r: Readers, L: seq<Snap>, base: nat)
    returns (lists: seq<seq<Snap>>, passes: seq<Pass>, ids: seq<nat>)
    requires Generated(L, base)
    ensures Course(lists, passes, ids) && passes == PassesOf(r) + [JobPass(r.texts), DefenderPass()]
    ensures lists[0] == AfterRegistry(Condensed(L), base) && lists[11] == Finished(r, L, base)
    ensures Gathers(lists[0], Condensed(L))
  {
    hide Condensed, AfterRegistry, ListAt, RunThrough, Planned, Gathers, Steady, Adds, Unlinked, EarlyStages, PassesOf,
      DistinctIds, LinksResolve, Below, JobPass, DefenderPass;
    PlanOfReaders(r);
    PassesStage(r);
    lists, passes, ids := CourseOf(PlanOf(r), L, base);
    FirstAndLast(PlanOf(r), L, base);
    CondensedIsSound(L, base);
    RegistryGathers(Condensed(L), base);
  }

  lemma Growing(lists: seq<seq<Snap>>, passes: seq<Pass>, ids: seq<nat>)
    requires Course(lists, passes, ids)
    ensures Extends(lists[0], lists[11]) && InPlaces(lists[11], |lists[0]|, 11)
  {
    hide Adds, Steady, Extends, InPlaces;
    RunExtends(lists, 11);
    RunInPlaces(lists, 11);
  }

  /** A transfer job whose file was executed yields an activity, for the first such execution. */
  lemma TransfersNoted(lists: seq<seq<Snap>>, passes: seq<Pass>, ids: seq<nat>, t: Texts)
    requires Course(lists, passes, ids) && passes[9] == JobPass(t)
    ensures Noted(lists[11], lists[0], TransferExecuted(t))
  {
    hide Adds, Steady, Due, Notes, Derives, Unplaced, Place, JobPass, TransferExecuted;
    var d, B, F := TransferExecuted(t), lists[0], lists[11];
    TransferExecutedDerived(t);
    TransfersUnplaced(t);
    forall i: nat | i < |B| && Due(B, d, i) ensures exists q: nat :: |B| <= q < |F| && Notes(F[q], B, d, i) {
      var q := RunNotes(lists, 9, passes[9], ids[9], d, 4, ExecutedJob(4), i);
    }
  }

  lemma DrivesTold(lists: seq<seq<Snap>>, passes: seq<Pass>, ids: seq<nat>, drivesIn: Facts -> seq<string>,
                   copies: Facts -> bool)
    requires Course(lists, passes, ids) && passes[8] == UsbPass(drivesIn, copies)
    ensures DrivesNoted(lists[11], lists[0], drivesIn, copies)
  {
    hide Steady, UsbPass, DrivesNoted;
    RunNotesDrives(lists, 8, ids[8], drivesIn, copies);
  }

  /** The analysis reports exactly what is due, in the order of its passes. */
  lemma AnalysisReports(r: Readers, L: seq<Snap>, base: nat)
    requires Generated(L, base)
    ensures Reported(r, L, base, Finished(r, L, base))
  {
    hide Generated, Condensed, AfterRegistry, Finished, Course, Told, Shares, Gathers, Extends, InPlaces;
    hide BrowserPass, PowershellPass, ArtifactsPass, SrumPass, TasksPass, RecyclePass, ShellbagsPass, JumplistsPass,
      UsbPass, JobPass, DefenderPass;
    hide DownloadExecuted, FetchedByShell, DownloadObserved, DownloadedAndActive, TaskRan, DownloadPersisted,
      DownloadDeleted, DetectedDeleted, PersistentDeleted, DownloadInFolder, OpenedAndDeleted, OpenedDownload,
      TransferDetected, DetectionFindings, Noted, DrivesNoted, TransferExecuted;
    var lists, passes, ids := CourseOfAnalysis(r, L, base);
    Growing(lists, passes, ids);
    DownloadsTold(lists, passes, ids, r.paths);
    ProgramsTold(lists, passes, ids);
    RecycledTold(lists, passes, ids, r.lacksContent);
    OpenedTold(lists, passes, ids, r.parentOf, r.folderOf);
    TransfersTold(lists, passes, ids, r.texts);
    DetectionsTold(lists, passes, ids);
    TransfersNoted(lists, passes, ids, r.texts);
    DrivesTold(lists, passes, ids, r.drivesIn, r.copies);
    SameLength(AfterRegistry(Condensed(L), base), Condensed(L));
  }

  lemma SameLength(B: seq<Snap>, C: seq<Snap>)
    requires Gathers(B, C)
    ensures |B| == |C|
  {}

  lemma UsageIsDue(B: seq<Snap>, C: seq<Snap>, i: nat, j: nat)
    requires Gathers(B, C) && i < |C| && j < |C|
    requires var f, g := C[i].facts, C[j].facts;
      && f.kind == "application_network_usage" && g.kind == "file_download"
      && f.host.Some? && f.host == g.host && Provenance.Apart(f, g, 7200)
      && Read(f, "process_path") == Read(g, "file_path") != ""
    ensures |B| == |C| && Due(B, DownloadedAndActive(), i)
  {
    hide Starts, Shortcut, Holds, Normalized, Field, Provenance.Apart;
    assert Pairs(B, DownloadedAndActive().partner.value, i, j);
  }

  lemma NoteOfFirst(F: seq<Snap>, B: seq<Snap>, C: seq<Snap>, d: Finding, at: map<nat, nat>, i: nat)
    returns (q: nat, k: nat)
    requires Tells(F, |B|, B, |B|, d, at) && Gathers(B, C) && |B| == |C| && i < |B| && Due(B, d, i) && d.partner.Some?
    ensures |C| <= q < |F| && F[q].facts.kind == d.kind && Holds(F[q], C[i])
    ensures k < |C| && C[k].facts.kind in d.partner.value.among && Holds(F[q], C[k])
    ensures var link := d.partner.value.link;
      link.Some? ==> link.value in F[q].body.links && F[q].body.links[link.value] == C[k].facts.id
  {
    hide Due, Gathers, Pairs;
    q := at[i];
    assert Notes(F[q], B, d, i);
    var t := d.partner.value;
    k :| FirstPartner(B, t, i, k) && Names(F[q], B, t, i, k);
    SameEntry(B, C, i);
    SameEntry(B, C, k);
    InAmong(B, t, i, k);
  }

  lemma SameEntry(B: seq<Snap>, C: seq<Snap>, i: nat)
    requires Gathers(B, C) && i < |C|
    ensures |B| == |C| && B[i].facts == C[i].facts && Holds(B[i], C[i])
  {
    hide Holds;
  }

  lemma InAmong(B: seq<Snap>, t: Partner, i: nat, k: nat)
    requires i < |B| && k < |B| && Pairs(B, t, i, k)
    ensures B[k].facts.kind in t.among
  {}

  /** For example: network usage by a program that was downloaded to that path on the same host within
      two hours is reported, with a download of the program and the evidence of both. */
  lemma NetworkUsageReported(F: seq<Snap>, C: seq<Snap>, B: seq<Snap>, findings: seq<Finding>, i: nat, j: nat)
    returns (q: nat, k: nat)
    requires Complete(F, C, B, findings) && DownloadedAndActive() in findings && i < |C| && j < |C|
    requires var f, g := C[i].facts, C[j].facts;
      && f.kind == "application_network_usage" && g.kind == "file_download"
      && f.host.Some? && f.host == g.host && Provenance.Apart(f, g, 7200)
      && Read(f, "process_path") == Read(g, "file_path") != ""
    ensures |C| <= q < |F| && k < |C| && C[k].facts.kind == "file_download"
    ensures F[q].facts.kind == "downloaded_and_network_active_program" && Holds(F[q], C[i]) && Holds(F[q], C[k])
    ensures "download_event" in F[q].body.links && F[q].body.links["download_event"] == C[k].facts.id
  {
    hide Gathers, Extends, InPlaces, Tells, Shares, Due, Read, Provenance.Apart;
    var d := DownloadedAndActive();
    UsageIsDue(B, C, i, j);
    assert Told(F, B, d);
    var at :| Tells(F, |B|, B, |B|, d, at);
    q, k := NoteOfFirst(F, B, C, d, at, i);
  }

  /** `build_case_semi_auto_analysis` from the generated activities to the final list, without the
      four components outside the model. */
  method RunAnalysis(r: Readers, generated: seq<Activity>, nextId: nat) returns (activities: seq<Activity>)
    requires Generated(Views(generated), nextId)
    modifies generated
    ensures Views(activities) == Finished(r, old(Views(generated)), nextId)
    ensures Conserved(old(Views(generated)), Views(activities)) && Settled(Views(activities))
    ensures Reported(r, old(Views(generated)), nextId, Views(activities))
  {
    hide EarlyStages, DefenderPass, RunPass, Conserved, Settled, Separate, StageOk, StageNotMergeable, RunJobs,
      Analysed;
    EarlyStagesOk(r);
    WindowsResults.DefenderSeparate();
    FinishedConserves(r, Views(generated), nextId);
    AnalysisReports(r, Views(generated), nextId);
    activities := RunPasses(EarlyStages(r), r.texts, DefenderPass(), generated, nextId);
  }
}
