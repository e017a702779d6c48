/** The pass over background transfer jobs. It is a table pass that also enriches the suspicious
    jobs belonging to an item, and its recipes name a match by its first related event when it has
    one: such a key field holds no activity id. `Texts` stands for what the pass reads besides the
    facts and the summary: the title, which nothing changes, and the file name of the local path. */
module Bits {
  import opened Text
  import opened Activities
  import opened Greedy
  import opened Growth
  import opened TablePasses
  import opened CorrelatePass
  import opened Derivations
  import opened StandardPasses
  import opened WindowsPasses

  datatype Texts = Texts(title: Facts -> string, localName: Facts -> string)

  const TOOLS := ["start-bitstransfer", "bitsadmin", "background intelligent transfer", "add-bitsfile",
                  "set-bitstransfer", "complete-bitstransfer"]

  function LocalPath(f: Facts): string {
    FirstClean(f, ["local_path", "file_path"])
  }

  function RemoteUrl(f: Facts): string {
    FirstClean(f, ["remote_url", "url"])
  }

  function Or(s: string, t: string): string {
    if s != "" then s else t
  }

  function AfterBackslash(path: string): string {
    if path == "" || path[|path| - 1] == '\\' then "" else AfterBackslash(path[..|path| - 1]) + [path[|path| - 1]]
  }

  predicate UsesTool(g: Facts) {
    exists tool :: tool in TOOLS && Contains(Lower(Field(g, "command_line")), tool)
  }

  predicate JobShell(f: Facts, y: Snap) {
    var g, summary := y.facts, y.body.summary;
    && HostWithin(f, g) && UsesTool(g)
    && ((RemoteUrl(f) != ""
         && Contains(Normalized(Or(FirstField(g, ["url", "command_line"]), summary)), RemoteUrl(f)))
        || (LocalPath(f) != "" && Contains(Normalized(Or(Field(g, "command_line"), summary)), LocalPath(f))))
  }

  predicate JobDownload(f: Facts, g: Facts) {
    && HostWithin(f, g)
    && (SameText(RemoteUrl(f), Clean(g, "url")) || SameText(LocalPath(f), Clean(g, "file_path")))
  }

  predicate JobCreation(f: Facts, g: Facts) {
    HostWithin(f, g) && SameText(LocalPath(f), Clean(g, "file_path")) && TimesAgree(f, g, 86400)
  }

  predicate JobDetection(f: Facts, g: Facts) {
    HostWithin(f, g) && SameText(LocalPath(f), Clean(g, "path"))
  }

  function ProcessName(g: Facts): string {
    FirstClean(g, ["process_name", "file_name"])
  }

  predicate JobExecution(t: Texts, f: Facts, g: Facts) {
    && HostWithin(f, g) && TimesAgree(f, g, 86400)
    && (SameText(LocalPath(f), FirstClean(g, ["process_path", "file_path"]))
        || SameText(t.localName(f), ProcessName(g)))
  }

  /** The second attempt, without a time window, when the first finds nothing. */
  predicate JobMention(t: Texts, f: Facts, y: Snap) {
    var g, name := y.facts, t.localName(f);
    && HostWithin(f, g) && name != ""
    && (Contains(Normalized(t.title(g)), name) || Contains(Normalized(y.body.summary), name) || name == ProcessName(g)
        || name == AfterBackslash(Clean(g, "process_path")) || name == AfterBackslash(Clean(g, "file_path")))
  }

  const EXECUTED := "BITS local file later executed"
  const DETECTED := "BITS local file later detected by Defender"

  /** The two recipes name their match by its first related event. */
  function ByEvent(kind: string, slot: nat, name: string, itemTimeFirst: bool, tags: seq<string>, c: real): Recipe {
    Follow(kind, slot, name, itemTimeFirst, false, tags, c).(byEvent := true)
  }

  function ExecutedJob(slot: nat): Recipe {
    ByEvent("bits_download_then_execute", slot, "execution_event", false, ["download", "execution_related"], 0.95)
  }

  function DetectedJob(): Recipe {
    ByEvent("bits_download_detected_by_defender", 3, "defender_event", true, ["download", "defender_correlated"], 0.94)
  }

  function ShellSlot(): Slot {
    SnapSlot((f: Facts) => "powershell" <= f.kind, JobShell, ["powershell_correlated"],
             ["PowerShell command references BITS job"], 0.86, [])
  }

  /** A slot whose test reads the candidate's summary too. */
  function SnapSlot(from: Facts -> bool, matches: (Facts, Snap) -> bool, tags: seq<string>, reasons: seq<string>,
                    floor: real, derive: seq<Recipe>): Slot {
    Slot(from, matches, First, tags, false, reasons, (f: Facts, g: Facts) => floor, KeepNotes, None, None, derive)
  }

  function ExecutionSlot(matches: (Facts, Snap) -> bool, slot: nat): Slot {
    SnapSlot((f: Facts) => f.kind == "program_execution" || f.kind == "execution_candidate", matches,
             ["execution_correlated"], [EXECUTED], 0.95, [ExecutedJob(slot)])
  }

  function JobSlots(t: Texts): seq<Slot> {
    [ShellSlot(),
     PlainSlot((f: Facts) => f.kind == "file_download", JobDownload, First, ["browser_correlated"], [], 0.82, []),
     PlainSlot((f: Facts) => f.kind == "file_created", JobCreation, First, ["mft_correlated"], [], 0.88, []),
     PlainSlot((f: Facts) => f.kind == "defender_detection", JobDetection, First, ["defender_correlated"], [DETECTED],
               0.94,
               [DetectedJob()]),
     ExecutionSlot((f: Facts, y: Snap) => JobExecution(t, f, y.facts), 4),
     ExecutionSlot((f: Facts, y: Snap) => JobMention(t, f, y), 5).(unless := Some(4))]
  }

  predicate IsJob(f: Facts) {
    (f.kind == "background_download" || f.kind == "bits_notify_persistence")
      && (LocalPath(f) != "" || RemoteUrl(f) != "")
  }

  function JobPass(t: Texts): Pass {
    Pass(IsJob, JobSlots(t), Scan, NoReason)
  }

  // ---- the suspicious jobs ---------------------------------------------------------

  const SUSPICIOUS := "suspicious_bits_job"

  /** A suspicious job belongs to an item with the same job id, present or not, path or address. */
  predicate Belongs(g: Facts, f: Facts) {
    && g.kind == SUSPICIOUS
    && (Clean(g, "job_id") == Clean(f, "job_id") || SameText(LocalPath(f), LocalPath(g))
        || SameText(RemoteUrl(f), RemoteUrl(g)))
  }

  /** Entry `j` after the items of `L[..n]` have had their rounds. */
  function JobAfter(t: Texts, L: seq<Snap>, j: nat, n: nat): Snap
    requires j < |L| && n <= |L|
  {
    if n == 0 then ItemAfter(JobPass(t), L, j)
    else
      var before, f := JobAfter(t, L, j, n - 1), L[n - 1].facts;
      var shell := FoundUpTo(ShellSlot(), f, L, |L|);
      if IsJob(f) && Belongs(L[j].facts, f) && shell != [] then Enrich(ShellSlot(), before, shell[0]) else before
  }

  function RunJobs(t: Texts, L: seq<Snap>, base: nat): seq<Snap> {
    seq(|L|, j requires 0 <= j < |L| => JobAfter(t, L, j, |L|)) + NewUpTo(JobPass(t), L, |L|, base)
  }

  lemma JobCandidates(t: Texts, f: Facts)
    requires IsJob(f)
    ensures var s := JobSlots(t);
      && |s| == 6
      && !s[0].from(f) && !s[1].from(f) && !s[2].from(f) && !s[3].from(f) && !s[4].from(f) && !s[5].from(f)
  {
    hide JobDownload, JobCreation, JobDetection, LocalPath, RemoteUrl;
    assert f.kind[0] == 'b' && "powershell"[0] == 'p';
  }

  lemma JobOrder(t: Texts)
    ensures |JobSlots(t)| == 6 && WellOrdered(JobSlots(t))
    ensures JobSlots(t)[0] == ShellSlot()
  {
    hide JobDownload, JobCreation, JobDetection, ExecutedJob, DetectedJob;
  }

  lemma JobsSeparate(t: Texts)
    ensures Separate(JobPass(t))
  {
    hide JobSlots, IsJob;
    JobOrder(t);
    var p := JobPass(t);
    forall f: Facts, k | 0 <= k < |p.slots| && p.selects(f) ensures !p.slots[k].from(f) { JobCandidates(t, f); }
  }

  lemma {:induction false} JobFits(t: Texts, L: seq<Snap>, j: nat, n: nat, h: Holdings)
    requires j < |L| && n <= |L| && forall s :: s in L ==> Fits(s, h) && s.facts.id in h.ids
    ensures var s := JobAfter(t, L, j, n); Fits(s, h) && Holds(s, L[j]) && s.facts == L[j].facts
  {
    hide Fits, ItemAfter, ShellSlot, Belongs, IsJob, Enrich;
    if n == 0 {
      ItemFits(JobPass(t), L, j, 0, h);
    } else {
      JobFits(t, L, j, n - 1, h);
      var shell := FoundUpTo(ShellSlot(), L[n - 1].facts, L, |L|);
      FoundAreEntries(ShellSlot(), L[n - 1].facts, L, |L|);
      if shell != [] {
        assert shell[0] in shell;
        EnrichFits(ShellSlot(), JobAfter(t, L, j, n - 1), shell[0], h);
        EnrichFacts(ShellSlot(), JobAfter(t, L, j, n - 1), shell[0]);
      }
    }
  }

  lemma EnrichFacts(s: Slot, x: Snap, y: Snap)
    ensures Enrich(s, x, y).facts == x.facts
  {}

  lemma JobKinds(t: Texts)
    ensures NewKinds(JobPass(t))
  {
    hide JobDownload, JobCreation, JobDetection, DerivedFacts;
    assert |JobPass(t).slots| == 6;
  }

  /** The pass only extends the list, suspicious jobs included. */
  lemma JobsExtend(t: Texts, L: seq<Snap>, base: nat)
    requires DistinctIds(L) && LinksResolve(L) && forall s :: s in L ==> s.facts.id < base
    ensures Extends(L, RunJobs(t, L, base))
    ensures forall s :: s in RunJobs(t, L, base) ==> s.facts.id < base + |NewUpTo(JobPass(t), L, |L|, base)|
  {
    hide Fits, JobAfter, NewUpTo, JobPass;
    var h, M := HoldingsOf(L), RunJobs(t, L, base);
    EntriesFit(L);
    NewFit(JobPass(t), L, |L|, base, h);
    forall i | 0 <= i < |L| ensures Fits(M[i], h) && Holds(M[i], L[i]) && M[i].facts == L[i].facts {
      JobFits(t, L, i, |L|, h);
    }
    ExtendsWhen(L, M);
    forall s | s in M ensures s.facts.id < base + |NewUpTo(JobPass(t), L, |L|, base)| {
      var k :| 0 <= k < |M| && M[k] == s;
      if k < |L| { assert s.facts == L[k].facts && L[k] in L; }
      else { assert s == NewUpTo(JobPass(t), L, |L|, base)[k - |L|]; }
    }
  }

  // ---- as it runs ------------------------------------------------------------------------

  /** Entry `j` once the items before `n` have had their rounds. */
  function JobState(t: Texts, L: seq<Snap>, j: nat, n: nat): Snap
    requires j < |L| && n <= |L|
  {
    if L[j].facts.kind == SUSPICIOUS then JobAfter(t, L, j, n)
    else if j < n then ItemAfter(JobPass(t), L, j)
    else L[j]
  }

  ghost predicate JobsTo(t: Texts, activities: seq<Activity>, L: seq<Snap>, n: nat)
    reads activities
  {
    && n <= |L| == |activities|
    && forall j: nat :: j < |L| ==> activities[j].View() == JobState(t, L, j, n)
  }

  lemma NoJob(t: Texts, L: seq<Snap>, j: nat)
    requires j < |L| && !IsJob(L[j].facts)
    ensures ItemAfter(JobPass(t), L, j) == L[j]
    ensures forall base :: ItemOutcome(JobPass(t), L, j, base) == Outcome(L[j], [])
  {
    hide AfterSlots, IsJob, Matched, JobSlots;
  }

  lemma SuspiciousIsNoJob(f: Facts)
    requires f.kind == SUSPICIOUS
    ensures !IsJob(f) && !("powershell" <= f.kind)
  {
    hide LocalPath, RemoteUrl;
    assert SUSPICIOUS[0] == 's';
  }

  lemma JobsStart(t: Texts, activities: seq<Activity>, L: seq<Snap>)
    requires L == Views(activities)
    ensures JobsTo(t, activities, L, 0)
  {
    hide ItemAfter, IsJob;
    forall j: nat | j < |L| ensures activities[j].View() == JobState(t, L, j, 0) {
      if L[j].facts.kind == SUSPICIOUS {
        SuspiciousIsNoJob(L[j].facts);
        NoJob(t, L, j);
      }
    }
  }

  lemma {:induction false} OthersUntouched(t: Texts, L: seq<Snap>, j: nat, n: nat)
    requires j < |L| && n <= |L| && L[j].facts.kind != SUSPICIOUS
    ensures JobAfter(t, L, j, n) == ItemAfter(JobPass(t), L, j)
  {
    hide ItemAfter, IsJob, ShellSlot, Enrich;
    if n > 0 { OthersUntouched(t, L, j, n - 1); }
  }

  lemma JobsEnd(t: Texts, activities: seq<Activity>, news: seq<Activity>, L: seq<Snap>, base: nat)
    requires JobsTo(t, activities, L, |L|) && Views(news) == NewUpTo(JobPass(t), L, |L|, base)
    ensures Views(activities + news) == RunJobs(t, L, base)
  {
    hide JobAfter, NewUpTo, ItemAfter;
    forall j: nat | j < |L| ensures JobState(t, L, j, |L|) == JobAfter(t, L, j, |L|) {
      if L[j].facts.kind != SUSPICIOUS { OthersUntouched(t, L, j, |L|); }
    }
    ViewsConcat(activities, news);
    assert Views(activities) == RunJobs(t, L, base)[..|L|];
  }

  /** What one round changes. */
  lemma JobStep(t: Texts, L: seq<Snap>, j: nat, n: nat)
    requires j < |L| && n < |L|
    ensures var f := L[n].facts;
      var shell := FoundUpTo(ShellSlot(), f, L, |L|);
      JobState(t, L, j, n + 1) ==
        if IsJob(f) && j == n then ItemAfter(JobPass(t), L, n)
        else if IsJob(f) && Belongs(L[j].facts, f)
          && shell != [] then Enrich(ShellSlot(), JobState(t, L, j, n), shell[0])
        else JobState(t, L, j, n)
  {
    hide ItemAfter, IsJob, ShellSlot, Enrich, FoundUpTo, JobAfter, Belongs;
    AfterStep(t, L, j, n);
    BelongingIsSuspicious(L[j].facts, L[n].facts);
    if L[n].facts.kind == SUSPICIOUS { SuspiciousIsNoJob(L[n].facts); }
    if !IsJob(L[n].facts) && j == n { NoJob(t, L, n); }
  }

  lemma AfterStep(t: Texts, L: seq<Snap>, j: nat, n: nat)
    requires j < |L| && n < |L|
    ensures var f := L[n].facts;
      var shell := FoundUpTo(ShellSlot(), f, L, |L|);
      JobAfter(t, L, j, n + 1) ==
        if IsJob(f) && Belongs(L[j].facts, f) && shell != [] then Enrich(ShellSlot(), JobAfter(t, L, j, n), shell[0])
        else JobAfter(t, L, j, n)
  {
    hide ItemAfter, IsJob, ShellSlot, Enrich, FoundUpTo, Belongs;
  }

  lemma BelongingIsSuspicious(g: Facts, f: Facts)
    ensures Belongs(g, f) ==> g.kind == SUSPICIOUS
  {
    hide Clean, SameText, LocalPath, RemoteUrl;
  }

  lemma JobCandidatesUntouched(t: Texts, activities: seq<Activity>, L: seq<Snap>, n: nat)
    requires JobsTo(t, activities, L, n)
    ensures forall j, k :: 0 <= j < |L| && 0 <= k < |JobSlots(t)| && JobSlots(t)[k].from(L[j].facts) ==>
      activities[j].View() == L[j]
  {
    hide JobSlots, IsJob, ItemAfter, JobAfter;
    JobOrder(t);
    forall j, k | 0 <= j < |L| && 0 <= k < |JobSlots(t)| && JobSlots(t)[k].from(L[j].facts)
      ensures activities[j].View() == L[j]
    {
      NotSuspicious(t, L[j].facts, k);
      if IsJob(L[j].facts) { JobCandidates(t, L[j].facts); }
      NoJob(t, L, j);
    }
  }

  lemma NotSuspicious(t: Texts, f: Facts, k: nat)
    requires k < |JobSlots(t)| && JobSlots(t)[k].from(f)
    ensures f.kind != SUSPICIOUS
  {
    hide JobDownload, JobCreation, JobDetection, ExecutedJob, DetectedJob;
    assert SUSPICIOUS[0] == 's';
    assert |JobSlots(t)| == 6;
  }

  /** The loop over the suspicious jobs of one item. */
  method EnrichSuspicious(activities: seq<Activity>, f: Facts, shell: Activity)
    requires DistinctActivities(activities) && shell.facts.kind != SUSPICIOUS
    modifies set a | a in activities && Belongs(a.facts, f)
    ensures forall j :: 0 <= j < |activities| ==>
      activities[j].View() ==
        if Belongs(activities[j].facts, f)
        then Enrich(ShellSlot(), old(activities[j].View()), old(shell.View())) else old(activities[j].View())
  {
    hide Enrich, ShellSlot;
    ghost var V, y := Views(activities), shell.View();
    for m := 0 to |activities|
      invariant shell.View() == y
      invariant forall j :: 0 <= j < |activities| ==>
        activities[j].View() ==
          if j < m && Belongs(activities[j].facts, f) then Enrich(ShellSlot(), V[j], y) else V[j]
    {
      if Belongs(activities[m].facts, f) {
        assert forall j :: 0 <= j < |activities| && j != m ==> activities[j].facts.id != activities[m].facts.id;
        EnrichInPlace(ShellSlot(), activities[m], shell);
      }
    }
  }

  /** The matches of one item. */
  method JobMatches(t: Texts, activities: seq<Activity>, n: nat, ghost L: seq<Snap>) returns (found: seq<seq<Activity>>)
    requires n < |activities| == |L| && JobsTo(t, activities, L, n) && IsJob(activities[n].facts)
    requires forall j :: 0 <= j < |L| ==> activities[j].facts == L[j].facts
    ensures ViewsOf(found) == Matched(JobPass(t), activities[n].facts, L)
    ensures |found| == 6 && forall k :: 0 <= k < |found| ==> activities[n] !in found[k]
    ensures Views(found[0]) == FoundUpTo(ShellSlot(), activities[n].facts, L, |L|)
    ensures forall k :: 0 <= k < |found[0]| ==> found[0][k].facts.kind != SUSPICIOUS
  {
    hide JobSlots, IsJob, JobState, Separate, ViewsOf, FoundUpTo, JobsTo, ShellSlot;
    var p, item := JobPass(t), activities[n];
    JobsSeparate(t);
    JobOrder(t);
    JobCandidatesUntouched(t, activities, L, n);
    found := FindAll(p.slots, item.facts, activities, L);
    forall k | 0 <= k < |found| ensures item !in found[k] { NotOwnMatch(p, item, found, L, k); }
    assert Views(found[0]) == FoundAll(p.slots, item.facts, L)[0];
    FirstSlotStands(t, item.facts, L);
    forall k | 0 <= k < |found[0]| ensures found[0][k].facts.kind != SUSPICIOUS {
      NotSuspicious(t, found[0][k].facts, 0);
    }
  }

  lemma FirstSlotStands(t: Texts, f: Facts, L: seq<Snap>)
    ensures |JobSlots(t)| == 6 && FoundAll(JobSlots(t), f, L)[0] == FoundUpTo(ShellSlot(), f, L, |L|)
  {
    hide FoundUpTo, JobDownload, JobCreation, JobDetection, ExecutedJob, DetectedJob;
    JobOrder(t);
    assert ShellSlot().unless.None?;
  }

  /** The item's own enrichment and what is derived from it. */
  method JobItem(t: Texts, item: Activity, found: seq<seq<Activity>>, ghost L: seq<Snap>, ghost n: nat, nextId: nat)
    returns (news: seq<Activity>)
    requires n < |L| && item.View() == L[n] && IsJob(item.facts)
    requires |found| == |JobSlots(t)| && forall k :: 0 <= k < |found| ==> item !in found[k]
    requires ViewsOf(found) == Matched(JobPass(t), item.facts, L)
    modifies item
    ensures item.View() == ItemAfter(JobPass(t), L, n)
    ensures Views(news) == ItemOutcome(JobPass(t), L, n, nextId).derived
    ensures forall k :: 0 <= k < |news| ==> fresh(news[k])
  {
    hide JobSlots, IsJob, AfterSlots, ViewsOf, Matched;
    var p := JobPass(t);
    ItemIgnoresIds(p.slots, |p.slots|, L[n], Matched(p, item.facts, L), nextId, 0);
    news := ApplySlots(p.slots, item, found, nextId);
  }

  /** The round of one item: find its matches, enrich it and derive from it, and enrich the
      suspicious jobs that belong to it. */
  method JobRound(t: Texts, activities: seq<Activity>, n: nat, ghost L: seq<Snap>, nextId: nat)
    returns (news: seq<Activity>)
    requires DistinctActivities(activities) && n < |activities| && JobsTo(t, activities, L, n)
    requires forall j :: 0 <= j < |L| ==> activities[j].facts == L[j].facts
    requires IsJob(activities[n].facts)
    modifies activities
    ensures JobsTo(t, activities, L, n + 1)
    ensures Views(news) == ItemOutcome(JobPass(t), L, n, nextId).derived
    ensures forall k :: 0 <= k < |news| ==> fresh(news[k])
  {
    hide JobSlots, JobPass, IsJob, ItemOutcome, ItemAfter, Matched, JobState, Enrich, ViewsOf, FoundUpTo, ShellSlot,
      Belongs;
    var item := activities[n];
    JobOrder(t);
    NotYet(t, L, n);
    var found: seq<seq<Activity>> := JobMatches(t, activities, n, L);
    ghost var shell: seq<Snap> := FoundUpTo(ShellSlot(), item.facts, L, |L|);
    ghost var V := Views(activities);
    assert found[0] != [] ==> found[0][0].View() == Views(found[0])[0];
    news := JobItem(t, item, found, L, n, nextId);
    NoneBelongs(item.facts);
    if found[0] != [] { EnrichSuspicious(activities, item.facts, found[0][0]); }
    forall j: nat | j < |L| ensures activities[j].View() == JobState(t, L, j, n + 1) {
      JobStep(t, L, j, n);
      assert j != n ==> activities[j].facts.id != item.facts.id;
      assert V[j] == JobState(t, L, j, n);
    }
  }

  lemma NotYet(t: Texts, L: seq<Snap>, n: nat)
    requires n < |L| && IsJob(L[n].facts)
    ensures JobState(t, L, n, n) == L[n]
  {
    hide ItemAfter, JobAfter, LocalPath, RemoteUrl;
    if L[n].facts.kind == SUSPICIOUS { SuspiciousIsNoJob(L[n].facts); }
  }

  lemma NoneBelongs(f: Facts)
    requires IsJob(f)
    ensures !Belongs(f, f) && forall g: Facts :: Belongs(g, f) ==> g.kind == SUSPICIOUS
  {
    hide LocalPath, RemoteUrl, Clean, SameText;
    if f.kind == SUSPICIOUS { SuspiciousIsNoJob(f); }
  }

  /** `correlate_bits_activity`. */
  method CorrelateJobs(t: Texts, activities: seq<Activity>, nextId: nat) returns (all: seq<Activity>, nextId': nat)
    requires DistinctActivities(activities)
    modifies activities
    ensures Views(all) == RunJobs(t, old(Views(activities)), nextId)
    ensures nextId' == nextId + |all| - |activities|
    ensures activities <= all && forall k :: |activities| <= k < |all| ==> fresh(all[k])
  {
    hide JobsTo, IsJob, JobPass, RunJobs, ItemOutcome;
    ghost var L := Views(activities);
    var news: seq<Activity> := [];
    JobsStart(t, activities, L);
    for n := 0 to |activities|
      invariant JobsTo(t, activities, L, n)
      invariant Views(news) == NewUpTo(JobPass(t), L, n, nextId)
      invariant forall k :: 0 <= k < |news| ==> fresh(news[k])
    {
      if IsJob(activities[n].facts) {
        var more := JobRound(t, activities, n, L, nextId + |news|);
        ViewsConcat(news, more);
        news := news + more;
      } else {
        NotAJob(t, activities, L, n, nextId + |news|);
      }
    }
    all, nextId' := activities + news, nextId + |news|;
    JobsEnd(t, activities, news, L, nextId);
  }

  lemma NotAJob(t: Texts, activities: seq<Activity>, L: seq<Snap>, n: nat, base: nat)
    requires n < |L| && JobsTo(t, activities, L, n) && !IsJob(activities[n].facts) && activities[n].facts == L[n].facts
    ensures JobsTo(t, activities, L, n + 1) && ItemOutcome(JobPass(t), L, n, base).derived == []
  {
    hide JobState, IsJob, ItemOutcome, ItemAfter, Enrich, FoundUpTo, ShellSlot, Belongs;
    NoJob(t, L, n);
    forall j: nat | j < |L| ensures JobState(t, L, j, n + 1) == JobState(t, L, j, n) { JobStep(t, L, j, n); }
  }

  // ---- what the key fields of the derived activities name ------------------------------

  /** The text under a key field; `printed` is how activity ids are written. */
  function KeyField(b: Body, name: string, printed: nat -> string): Option<string> {
    if name in b.links then Some(printed(b.links[name]))
    else if name in b.notes then Some(b.notes[name])
    else None
  }

  ghost predicate NamesMember(F: seq<Snap>, text: string, printed: nat -> string) {
    exists s :: s in F && printed(s.facts.id) == text
  }

  /** No event id is written like an activity id. */
  ghost predicate Apart(L: seq<Snap>, printed: nat -> string) {
    forall id, e :: e in Evidence(Events, L) ==> printed(id) != e
  }

  /** What is said of one derived activity: its key field names a member of the list if and only
      if the match had no related event. */
  ghost predicate NamesUnlessEvent(d: Snap, r: Recipe, found: seq<seq<Snap>>, F: seq<Snap>, printed: nat -> string) {
    && |r.links| == 1 && HasMatch(found, r.links[0].1)
    && var v := KeyField(d.body, r.links[0].0, printed);
       var y := found[r.links[0].1][0];
       && v.Some?
       && (NamesMember(F, v.value, printed) <==> y.body.events == [])
       && (y.body.events != [] ==> v.value == y.body.events[0])
  }

  lemma OneReference(d: Snap, r: Recipe, f: Facts, found: seq<seq<Snap>>, id: nat, L: seq<Snap>, F: seq<Snap>,
                     printed: nat -> string)
    requires BuiltBy(d, r, f, found, id) && r.byEvent && |r.links| == 1 && HasMatch(found, r.links[0].1)
    requires found[r.links[0].1][0] in L && Ids(L) <= Ids(F) && Apart(L, printed)
    ensures NamesUnlessEvent(d, r, found, F, printed)
  {
    var m := r.links[0];
    var y := found[m.1][0];
    assert PointsAt(d.body.links, m, NamedById(r, found));
    assert NotesEvent(d.body.notes, m, found);
    if y.body.events != [] {
      assert y.body.events[0] in Carried(Events, y.body);
      assert y.body.events[0] in Evidence(Events, L);
      assert KeyField(d.body, m.0, printed) == Some(y.body.events[0]);
    } else {
      assert y.facts.id in Ids(F);
      var s :| s in F && s.facts.id == y.facts.id;
      assert printed(s.facts.id) == printed(y.facts.id);
    }
  }

  lemma JobRecipes(t: Texts)
    ensures forall j, r :: 0 <= j < |JobSlots(t)| && r in JobSlots(t)[j].derive ==>
      r.byEvent && |r.links| == 1 && r.needs == [r.links[0].1]
    ensures forall j :: 0 <= j < |JobSlots(t)| ==> Distinct(JobSlots(t)[j].derive)
  {
    hide JobDownload, JobCreation, JobDetection, DerivedFacts;
    var s := JobSlots(t);
    assert |s| == 6;
  }

  /** The two key fields that the pass writes, on every derived activity of every item: the value
      names a member of the list, or of any list that holds those members, exactly when the match
      had no related event; otherwise it is that event. */
  lemma JobReferences(t: Texts, L: seq<Snap>, i: nat, base: nat, F: seq<Snap>, printed: nat -> string)
    requires i < |L| && IsJob(L[i].facts) && Ids(L) <= Ids(F) && Apart(L, printed)
    ensures var f := L[i].facts;
      var found, derived := Matched(JobPass(t), f, L), ItemOutcome(JobPass(t), L, i, base).derived;
      var fired := Firing(JobSlots(t), |JobSlots(t)|, f, found);
      && |derived| == |fired|
      && forall n :: 0 <= n < |derived| ==> NamesUnlessEvent(derived[n], fired[n], found, F, printed)
  {
    hide JobSlots, IsJob, ItemOutcome, Matched, Firing, BuiltBy, Applies, Distinct, NamesUnlessEvent, Apart, Ids;
    var p, f := JobPass(t), L[i].facts;
    var found, derived := Matched(p, f, L), ItemOutcome(p, L, i, base).derived;
    var fired := Firing(p.slots, |p.slots|, f, found);
    JobRecipes(t);
    DerivedInOrder(p, L, i, base);
    forall n | 0 <= n < |derived| ensures NamesUnlessEvent(derived[n], fired[n], found, F, printed) {
      var r := fired[n];
      FiringApplies(p.slots, |p.slots|, f, found, r);
      var slot := r.links[0].1;
      NeedsItsSlot(r, f, found, slot);
      MatchedAreEntries(p, f, L, slot, found[slot][0]);
      OneReference(derived[n], r, f, found, base + n, L, F, printed);
    }
  }

  lemma NeedsItsSlot(r: Recipe, f: Facts, found: seq<seq<Snap>>, slot: nat)
    requires Applies(r, f, found) && r.needs == [slot]
    ensures HasMatch(found, slot)
  {
    assert slot in r.needs;
  }

  // ---- a run on which a key field dangles ------------------------------------------------

  lemma DetectedFires(t: Texts, f: Facts, found: seq<seq<Snap>>)
    requires |found| == 6 && found[3] != []
    ensures |JobSlots(t)| == 6 && DetectedJob() in Firing(JobSlots(t), 6, f, found)
  {
    hide JobDownload, JobCreation, JobDetection, Applying, DetectedJob, ExecutedJob;
    var s := JobSlots(t);
    assert s[3].derive == [DetectedJob()];
    DetectedApplies(f, found);
    assert DetectedJob() in Firing(s, 4, f, found);
    assert DetectedJob() in Firing(s, 5, f, found);
  }

  lemma DetectedApplies(f: Facts, found: seq<seq<Snap>>)
    requires |found| == 6 && found[3] != []
    ensures DetectedJob() in Applying([DetectedJob()], f, found)
  {
    var r := DetectedJob();
    assert forall k :: k in r.needs ==> k == 3;
    ApplyingOne(r, f, found);
  }

  lemma DetectionIsFound(t: Texts, x: Snap, y: Snap)
    requires IsJob(x.facts) && y.facts.kind == "defender_detection" && JobDetection(x.facts, y.facts)
    ensures |Matched(JobPass(t), x.facts, [x, y])| == 6 && Matched(JobPass(t), x.facts, [x, y])[3] == [y]
  {
    hide JobDetection, JobDownload, JobCreation, LocalPath, RemoteUrl;
    var s, L := JobSlots(t), [x, y];
    assert s[3].unless.None?;
    JobCandidates(t, x.facts);
    assert FoundUpTo(s[3], x.facts, L, 0) == [];
    assert FoundUpTo(s[3], x.facts, L, 1) == [];
    assert FoundUpTo(s[3], x.facts, L, 2) == [y];
  }

  /** A job and a detection of its file that has a related event: the pass stores that event under
      `defender_event`, and no activity has such an id. */
  lemma EventReferenceDangles(t: Texts, printed: nat -> string) returns (L: seq<Snap>, d: Snap)
    requires forall id :: printed(id) != "e"
    ensures |L| == 2 && DistinctIds(L) && LinksResolve(L) && d in RunJobs(t, L, 2)
    ensures KeyField(d.body, "defender_event", printed) == Some("e")
    ensures !NamesMember(RunJobs(t, L, 2), "e", printed)
  {
    hide IsJob, JobDetection, RunJobs, KeyField, JobPass, Matched;
    var b := Body([], [], [], [], 0.5, "", [], map[], map[]);
    var x := Snap(Facts(0, "background_download", NoStamp, None, None, map["local_path" := "a"]), b);
    var y := Snap(Facts(1, "defender_detection", NoStamp, None, None, map["path" := "a"]), b.(events := ["e"]));
    L := [x, y];
    WitnessJob(x.facts, y.facts);
    DetectionIsFound(t, x, y);
    d := StoredEvent(t, x, y, printed);
  }

  lemma WitnessJob(f: Facts, g: Facts)
    requires f == Facts(0, "background_download", NoStamp, None, None, map["local_path" := "a"])
    requires g == Facts(1, "defender_detection", NoStamp, None, None, map["path" := "a"])
    ensures IsJob(f) && !IsJob(g) && JobDetection(f, g)
  {
    hide FirstField;
    OneLetter('a');
    assert ["local_path"] + ["file_path"] == ["local_path", "file_path"];
    FirstIsSet(f, "local_path", ["file_path"]);
  }

  lemma FirstIsSet(f: Facts, name: string, names: seq<string>)
    requires Field(f, name) != ""
    ensures FirstField(f, [name] + names) == Field(f, name)
  {}

  lemma StoredEvent(t: Texts, x: Snap, y: Snap, printed: nat -> string) returns (d: Snap)
    requires IsJob(x.facts) && !IsJob(y.facts) && |y.body.events| == 1 && x.body.events == []
    requires |Matched(JobPass(t), x.facts, [x, y])| == 6 && Matched(JobPass(t), x.facts, [x, y])[3] == [y]
    requires forall id :: printed(id) != y.body.events[0]
    ensures d in RunJobs(t, [x, y], 2)
    ensures KeyField(d.body, "defender_event", printed) == Some(y.body.events[0])
  {
    hide JobSlots, IsJob, Matched, Firing, BuiltBy, NamesUnlessEvent, JobAfter, ItemOutcome, KeyField;
    var L, f := [x, y], x.facts;
    var found := Matched(JobPass(t), f, L);
    assert Apart(L, printed);
    JobReferences(t, L, 0, 2, L, printed);
    DetectedFires(t, f, found);
    var derived, fired := ItemOutcome(JobPass(t), L, 0, 2).derived, Firing(JobSlots(t), 6, f, found);
    var n :| 0 <= n < |fired| && fired[n] == DetectedJob();
    d := derived[n];
    DetectedNamed(d, found, L, printed);
    NewOfTwo(t, x, y);
    assert d in NewUpTo(JobPass(t), L, 2, 2);
  }

  lemma DetectedNamed(d: Snap, found: seq<seq<Snap>>, F: seq<Snap>, printed: nat -> string)
    requires NamesUnlessEvent(d, DetectedJob(), found, F, printed)
    requires |found| == 6 && found[3] != [] && found[3][0].body.events != []
    ensures KeyField(d.body, "defender_event", printed) == Some(found[3][0].body.events[0])
  {
    assert DetectedJob().links == [("defender_event", 3)];
  }

  lemma NewOfTwo(t: Texts, x: Snap, y: Snap)
    requires !IsJob(y.facts)
    ensures NewUpTo(JobPass(t), [x, y], 2, 2) == ItemOutcome(JobPass(t), [x, y], 0, 2).derived
  {
    hide JobSlots, AfterSlots, IsJob, Matched;
    var p, L := JobPass(t), [x, y];
    assert NewUpTo(p, L, 0, 2) == [];
    assert NewUpTo(p, L, 1, 2) == ItemOutcome(p, L, 0, 2).derived;
  }
}
