/** What holds of each of the passes in WindowsPasses: no entry is both item and candidate, which
    activities are derived under which matches, which matches they name, and on which hosts. */
module WindowsResults {
  import opened Text
  import opened Activities
  import opened Greedy
  import opened TablePasses
  import opened Derivations
  import opened StandardPasses
  import opened WindowsPasses

  lemma WithinAgrees(f: Facts, g: Facts)
    ensures HostWithin(f, g) ==> HostsAgree(f, g)
  {
    hide Normalized;
  }

  // ---- the PowerShell pass -------------------------------------------------------------

  lemma PowershellShape(paths: Facts -> seq<string>)
    ensures var p := PowershellPass(paths);
      && p.finder == Scan && |p.slots| == 6 && p.selects == OfKind(POWERSHELL_KINDS)
      && SlotIs(p.slots[0], DOWNLOADS, WithPaths(paths, ShellDownload), [ShellFetch()])
      && SlotIs(p.slots[1], PROGRAMS, ShellExecution, [])
      && SlotIs(p.slots[2], DETECTIONS, WithPaths(paths, ShellDetection), [])
      && SlotIs(p.slots[3], TASKS, WithPaths(paths, ShellTask), [])
      && SlotIs(p.slots[4], USAGES, ShellNetwork, [])
      && SlotIs(p.slots[5], WRITTEN, WithPaths(paths, ShellFile), [])
  {
    hide WithPaths, ShellFetch, ShellExecution, ShellNetwork;
  }

  lemma PowershellKinds()
    ensures POWERSHELL_KINDS !! DOWNLOADS + PROGRAMS + DETECTIONS + TASKS + USAGES + WRITTEN
  {}

  lemma PowershellNew()
    ensures ShellFetch().kind !in MERGED_KINDS
  {}

  lemma PowershellSeparate(paths: Facts -> seq<string>)
    ensures Separate(PowershellPass(paths)) && Plain(PowershellPass(paths))
  {
    hide PowershellPass, MERGED_KINDS, ShellFetch, DOWNLOADS, PROGRAMS, USAGES, WRITTEN, TASKS, POWERSHELL_KINDS,
      DETECTIONS;
    PowershellShape(paths);
    PowershellKinds();
    PowershellNew();
    PlainIsSeparate(PowershellPass(paths));
  }

  function PowershellExpected(f: Facts, found: seq<seq<Snap>>): seq<Sign> {
    If(f.kind == "powershell_download" && HasMatch(found, 0),
       Sign("downloaded_and_executed_via_powershell", [("download_event", 0)]))
  }

  lemma PowershellNames(paths: Facts -> seq<string>)
    ensures NamesById(PowershellPass(paths).slots)
  {
    hide PowershellPass;
    PowershellShape(paths);
  }

  lemma PowershellSigns(paths: Facts -> seq<string>, f: Facts, found: seq<seq<Snap>>)
    requires |found| == 6
    ensures |PowershellPass(paths).slots| == 6
    ensures SignsUpTo(PowershellPass(paths).slots, 6, f, found) ==
      PowershellExpected(f, found)
  {
    hide PowershellPass, Applying, Signs, SignsUpTo, If;
    PowershellShape(paths);
    Unrolled(PowershellPass(paths).slots, f, found);
    NoneApplying(f, found);
    OneSign(ShellFetch(), f, found, 0);
  }

  /** A download command yields one activity exactly when a download matches it, and that names the
      first such download; other commands yield none. */
  lemma PowershellDerives(paths: Facts -> seq<string>, L: seq<Snap>, i: nat, base: nat)
    requires i < |L| && L[i].facts.kind in POWERSHELL_KINDS
    ensures var p, f := PowershellPass(paths), L[i].facts;
      var found := Matched(p, f, L);
      && |found| == 6
      && Yields(ItemOutcome(p, L, i, base).derived, PowershellExpected(f, found), found, base)
      && FirstOf(found[0], L, DOWNLOADS, f, WithPaths(paths, ShellDownload))
  {
    hide PowershellPass, Matched, ItemOutcome, SignsUpTo, FirstOf, SlotIs, PowershellExpected, Yields, NamesById;
    var p, f := PowershellPass(paths), L[i].facts;
    PowershellShape(paths);
    PowershellNames(paths);
    PowershellSigns(paths, f, Matched(p, f, L));
    PassYields(p, L, i, base);
    SlotFinds(p, f, L, 0, DOWNLOADS, WithPaths(paths, ShellDownload), [ShellFetch()]);
  }

  lemma ShellHosts(paths: Facts -> seq<string>, f: Facts, g: Facts)
    ensures ShellDownload(paths, f, g) || ShellDetection(paths, f, g) || ShellTask(paths, f, g) ==> HostsAgree(f, g)
    ensures ShellFile(paths, f, g) || ShellExecution(f, g) || ShellNetwork(f, g) ==> HostsAgree(f, g)
  {
    hide HostsAgree, Clean, Contains, Normalized;
  }

  lemma PowershellHosts(paths: Facts -> seq<string>)
    ensures RespectsHosts(PowershellPass(paths))
  {
    hide PowershellPass, HostsAgree, ShellDownload, ShellDetection, ShellTask, ShellFile, ShellExecution, ShellNetwork;
    var p := PowershellPass(paths);
    PowershellShape(paths);
    forall k, f: Facts, y: Snap | 0 <= k < |p.slots| && p.slots[k].matches(f, y) ensures HostsAgree(f, y.facts) {
      ShellHosts(paths, f, y.facts);
    }
  }

  // ---- the network usage pass ----------------------------------------------------------

  lemma SrumShape()
    ensures var p := SrumPass();
      && p.finder == Scan && |p.slots| == 3 && p.selects == IsUsage
      && SlotIs(p.slots[0], EXECUTION_KINDS, UsageExecution, [])
      && SlotIs(p.slots[1], OBSERVED, UsageFile, [])
      && SlotIs(p.slots[2], DOWNLOADS, UsageDownload, [NetworkActive()])
  {
    hide UsageExecution, UsageFile, UsageDownload, NetworkActive;
  }

  lemma SrumKinds()
    ensures USAGES !! EXECUTION_KINDS + OBSERVED + DOWNLOADS
  {}

  lemma SrumNew()
    ensures NetworkActive().kind !in MERGED_KINDS
  {}

  lemma SrumSeparate()
    ensures Separate(SrumPass()) && Plain(SrumPass())
  {
    hide SrumPass, MERGED_KINDS, NetworkActive, DOWNLOADS, OBSERVED, USAGES, EXECUTION_KINDS;
    SrumShape();
    SrumKinds();
    SrumNew();
    PlainIsSeparate(SrumPass());
  }

  function SrumExpected(f: Facts, found: seq<seq<Snap>>): seq<Sign> {
    If(HasMatch(found, 2), Sign("downloaded_and_network_active_program",
                                [("download_event", 2), ("execution_event", 0)]))
  }

  lemma SrumNames()
    ensures NamesById(SrumPass().slots)
  {
    hide SrumPass;
    SrumShape();
  }

  lemma SrumSigns(f: Facts, found: seq<seq<Snap>>)
    requires |found| == 3
    ensures |SrumPass().slots| == 3
    ensures SignsUpTo(SrumPass().slots, 3, f, found) ==
      SrumExpected(f, found)
  {
    hide SrumPass, Applying, Signs, SignsUpTo, If;
    SrumShape();
    Unrolled(SrumPass().slots, f, found);
    NoneApplying(f, found);
    OneSign(NetworkActive(), f, found, 2);
  }

  /** A usage record yields one activity exactly when a download matches it; that names the first
      such download and the first matching execution, or no execution if none matches. */
  lemma SrumDerives(L: seq<Snap>, i: nat, base: nat)
    requires i < |L| && IsUsage(L[i].facts)
    ensures var p, f := SrumPass(), L[i].facts;
      var found := Matched(p, f, L);
      && |found| == 3
      && Yields(ItemOutcome(p, L, i, base).derived, SrumExpected(f, found), found, base)
      && FirstOf(found[0], L, EXECUTION_KINDS, f, UsageExecution)
      && FirstOf(found[2], L, DOWNLOADS, f, UsageDownload)
  {
    hide SrumPass, Matched, ItemOutcome, SignsUpTo, FirstOf, SlotIs, SrumExpected, Yields, NamesById;
    var p, f := SrumPass(), L[i].facts;
    SrumShape();
    SrumNames();
    SrumSigns(f, Matched(p, f, L));
    PassYields(p, L, i, base);
    SlotFinds(p, f, L, 0, EXECUTION_KINDS, UsageExecution, []);
    SlotFinds(p, f, L, 2, DOWNLOADS, UsageDownload, [NetworkActive()]);
  }

  lemma SrumHosts()
    ensures RespectsHosts(SrumPass())
  {
    hide SrumPass, HostsAgree, Normalized, FirstField, Clean;
    SrumShape();
  }

  // ---- the scheduled task pass ---------------------------------------------------------

  lemma TasksShape()
    ensures var p := TasksPass();
      && p.finder == Scan && |p.slots| == 4 && p.selects == OfKind(TASKS)
      && SlotIs(p.slots[0], TASK_EVENTS, TaskEvent, [])
      && SlotIs(p.slots[1], OBSERVED, TaskObserved, [])
      && SlotIs(p.slots[2], EXECUTION_KINDS, TaskExecution, [TaskRun()])
      && SlotIs(p.slots[3], DOWNLOADS, TaskDownload, [TaskPersisted()])
  {
    hide TaskEvent, TaskObserved, TaskExecution, TaskRun, TaskDownload, TaskPersisted;
  }

  lemma TasksKinds()
    ensures TASKS !! TASK_EVENTS + OBSERVED + EXECUTION_KINDS + DOWNLOADS
  {}

  lemma TasksNew()
    ensures TaskRun().kind !in MERGED_KINDS
    ensures TaskPersisted().kind !in MERGED_KINDS
  {}

  lemma TasksSeparate()
    ensures Separate(TasksPass()) && Plain(TasksPass())
  {
    hide TasksPass, MERGED_KINDS, TaskRun, TaskPersisted, DOWNLOADS, OBSERVED, TASKS, TASK_EVENTS, EXECUTION_KINDS;
    TasksShape();
    TasksKinds();
    TasksNew();
    PlainIsSeparate(TasksPass());
  }

  function TasksExpected(f: Facts, found: seq<seq<Snap>>): seq<Sign> {
    If(HasMatch(found, 2), Sign("task_execution", [("executed_event", 2)]))
    + If(HasMatch(found, 3), Sign("downloaded_and_persisted", [("download_event", 3)]))
  }

  lemma TasksNames()
    ensures NamesById(TasksPass().slots)
  {
    hide TasksPass;
    TasksShape();
  }

  lemma TasksSigns(f: Facts, found: seq<seq<Snap>>)
    requires |found| == 4
    ensures |TasksPass().slots| == 4
    ensures SignsUpTo(TasksPass().slots, 4, f, found) ==
      TasksExpected(f, found)
  {
    hide TasksPass, Applying, Signs, SignsUpTo, If;
    TasksShape();
    Unrolled(TasksPass().slots, f, found);
    NoneApplying(f, found);
    OneSign(TaskRun(), f, found, 2);
    OneSign(TaskPersisted(), f, found, 3);
  }

  /** A task yields an execution activity for the first matching execution and a persistence
      activity for the first matching download. */
  lemma TasksDerives(L: seq<Snap>, i: nat, base: nat)
    requires i < |L| && L[i].facts.kind in TASKS
    ensures var p, f := TasksPass(), L[i].facts;
      var found := Matched(p, f, L);
      && |found| == 4
      && Yields(ItemOutcome(p, L, i, base).derived, TasksExpected(f, found), found, base)
      && FirstOf(found[2], L, EXECUTION_KINDS, f, TaskExecution)
      && FirstOf(found[3], L, DOWNLOADS, f, TaskDownload)
  {
    hide TasksPass, Matched, ItemOutcome, SignsUpTo, FirstOf, SlotIs, TasksExpected, Yields, NamesById;
    var p, f := TasksPass(), L[i].facts;
    TasksShape();
    TasksNames();
    TasksSigns(f, Matched(p, f, L));
    PassYields(p, L, i, base);
    SlotFinds(p, f, L, 2, EXECUTION_KINDS, TaskExecution, [TaskRun()]);
    SlotFinds(p, f, L, 3, DOWNLOADS, TaskDownload, [TaskPersisted()]);
  }

  lemma TasksHosts()
    ensures RespectsHosts(TasksPass())
  {
    hide TasksPass, HostsAgree, Normalized, FirstField, Clean;
    TasksShape();
  }

  // ---- the recycle bin pass ------------------------------------------------------------

  lemma RecycleShape(lacksContent: Facts -> bool)
    ensures var p := RecyclePass(lacksContent);
      && p.finder == Scan && |p.slots| == 5 && p.selects == IsRecycled
      && SlotIs(p.slots[0], DOWNLOADS, RecycledDownload, [DeletedDownload()])
      && SlotIs(p.slots[1], DETECTIONS, RecycledDetection, [DeletedDetected()])
      && SlotIs(p.slots[2], RUNNABLE, RecycledExecution, [])
      && SlotIs(p.slots[3], FILE_EVENTS, RecycledFile, [])
      && SlotIs(p.slots[4], PERSISTENT, RecycledPersistence, [DeletedPersistent()])
  {
    hide RecycledDownload, DeletedDownload, RecycledDetection, DeletedDetected, RecycledExecution, RecycledFile,
      RecycledPersistence, DeletedPersistent;
  }

  lemma RecycleKinds()
    ensures RECYCLED !! DOWNLOADS + DETECTIONS + RUNNABLE + FILE_EVENTS + PERSISTENT
  {}

  lemma RecycleNew()
    ensures DeletedDownload().kind !in MERGED_KINDS
    ensures DeletedDetected().kind !in MERGED_KINDS
    ensures DeletedPersistent().kind !in MERGED_KINDS
  {}

  lemma RecycleSeparate(lacksContent: Facts -> bool)
    ensures Separate(RecyclePass(lacksContent)) && Plain(RecyclePass(lacksContent))
  {
    hide RecyclePass, MERGED_KINDS, DeletedDownload, DeletedDetected, DeletedPersistent, DOWNLOADS, RECYCLED, RUNNABLE,
      FILE_EVENTS, PERSISTENT, DETECTIONS;
    RecycleShape(lacksContent);
    RecycleKinds();
    RecycleNew();
    PlainIsSeparate(RecyclePass(lacksContent));
  }

  function RecycleExpected(f: Facts, found: seq<seq<Snap>>): seq<Sign> {
    If(HasMatch(found, 0), Sign("deleted_download", [("download_event", 0)]))
    + If(HasMatch(found, 1), Sign("deleted_detected_file", [("defender_event", 1)]))
    + If(HasMatch(found, 4), Sign("deleted_persistent_file", [("persistence_event", 4)]))
  }

  lemma RecycleNames(lacksContent: Facts -> bool)
    ensures NamesById(RecyclePass(lacksContent).slots)
  {
    hide RecyclePass;
    RecycleShape(lacksContent);
  }

  lemma RecycleSigns(lacksContent: Facts -> bool, f: Facts, found: seq<seq<Snap>>)
    requires |found| == 5
    ensures |RecyclePass(lacksContent).slots| == 5
    ensures SignsUpTo(RecyclePass(lacksContent).slots, 5, f, found) ==
      RecycleExpected(f, found)
  {
    hide RecyclePass, Applying, Signs, SignsUpTo, If;
    RecycleShape(lacksContent);
    Unrolled(RecyclePass(lacksContent).slots, f, found);
    NoneApplying(f, found);
    OneSign(DeletedDownload(), f, found, 0);
    OneSign(DeletedDetected(), f, found, 1);
    OneSign(DeletedPersistent(), f, found, 4);
  }

  /** A recycled file yields up to three activities, for the first matching download, detection and
      persistence entry. */
  lemma RecycleDerives(lacksContent: Facts -> bool, L: seq<Snap>, i: nat, base: nat)
    requires i < |L| && IsRecycled(L[i].facts)
    ensures var p, f := RecyclePass(lacksContent), L[i].facts;
      var found := Matched(p, f, L);
      && |found| == 5
      && Yields(ItemOutcome(p, L, i, base).derived, RecycleExpected(f, found), found, base)
      && FirstOf(found[0], L, DOWNLOADS, f, RecycledDownload)
      && FirstOf(found[1], L, DETECTIONS, f, RecycledDetection)
      && FirstOf(found[4], L, PERSISTENT, f, RecycledPersistence)
  {
    hide RecyclePass, Matched, ItemOutcome, SignsUpTo, FirstOf, SlotIs, RecycleExpected, Yields, NamesById;
    var p, f := RecyclePass(lacksContent), L[i].facts;
    RecycleShape(lacksContent);
    RecycleNames(lacksContent);
    RecycleSigns(lacksContent, f, Matched(p, f, L));
    PassYields(p, L, i, base);
    SlotFinds(p, f, L, 0, DOWNLOADS, RecycledDownload, [DeletedDownload()]);
    SlotFinds(p, f, L, 1, DETECTIONS, RecycledDetection, [DeletedDetected()]);
    SlotFinds(p, f, L, 4, PERSISTENT, RecycledPersistence, [DeletedPersistent()]);
  }

  lemma RecycleHosts(lacksContent: Facts -> bool)
    ensures RespectsHosts(RecyclePass(lacksContent))
  {
    hide RecyclePass, HostsAgree, Normalized, FirstField, Clean;
    RecycleShape(lacksContent);
  }

  // ---- the folder access pass ----------------------------------------------------------

  lemma ShellbagsShape(parentOf: Facts -> string)
    ensures var p := ShellbagsPass(parentOf);
      && p.finder == Scan && |p.slots| == 3 && p.selects == IsFolder
      && SlotIs(p.slots[0], FILE_ACCESS_KINDS, WithParents(parentOf, UnderFolder), [])
      && SlotIs(p.slots[1], RECYCLED, WithParents(parentOf, InFolder), [])
      && SlotIs(p.slots[2], DOWNLOADS, WithParents(parentOf, InFolder), [FolderRelated()])
  {
    hide WithParents, FolderRelated;
  }

  lemma ShellbagsKinds()
    ensures FOLDERS !! FILE_ACCESS_KINDS + RECYCLED + DOWNLOADS
  {}

  lemma ShellbagsNew()
    ensures FolderRelated().kind !in MERGED_KINDS
  {}

  lemma ShellbagsSeparate(parentOf: Facts -> string)
    ensures Separate(ShellbagsPass(parentOf)) && Plain(ShellbagsPass(parentOf))
  {
    hide ShellbagsPass, MERGED_KINDS, FolderRelated, DOWNLOADS, RECYCLED, FOLDERS, FILE_ACCESS_KINDS;
    ShellbagsShape(parentOf);
    ShellbagsKinds();
    ShellbagsNew();
    PlainIsSeparate(ShellbagsPass(parentOf));
  }

  function ShellbagsExpected(f: Facts, found: seq<seq<Snap>>): seq<Sign> {
    If(HasMatch(found, 2), Sign("folder_related_to_deleted_download", []))
  }

  lemma ShellbagsNames(parentOf: Facts -> string)
    ensures NamesById(ShellbagsPass(parentOf).slots)
  {
    hide ShellbagsPass;
    ShellbagsShape(parentOf);
  }

  lemma ShellbagsSigns(parentOf: Facts -> string, f: Facts, found: seq<seq<Snap>>)
    requires |found| == 3
    ensures |ShellbagsPass(parentOf).slots| == 3
    ensures SignsUpTo(ShellbagsPass(parentOf).slots, 3, f, found) ==
      ShellbagsExpected(f, found)
  {
    hide ShellbagsPass, Applying, Signs, SignsUpTo, If;
    ShellbagsShape(parentOf);
    Unrolled(ShellbagsPass(parentOf).slots, f, found);
    NoneApplying(f, found);
    OneSign(FolderRelated(), f, found, 2);
  }

  /** A folder yields one activity exactly when a download lies in it; that names no match. */
  lemma ShellbagsDerives(parentOf: Facts -> string, L: seq<Snap>, i: nat, base: nat)
    requires i < |L| && IsFolder(L[i].facts)
    ensures var p, f := ShellbagsPass(parentOf), L[i].facts;
      var found := Matched(p, f, L);
      && |found| == 3
      && Yields(ItemOutcome(p, L, i, base).derived, ShellbagsExpected(f, found), found, base)
      && FirstOf(found[2], L, DOWNLOADS, f, WithParents(parentOf, InFolder))
  {
    hide ShellbagsPass, Matched, ItemOutcome, SignsUpTo, FirstOf, SlotIs, ShellbagsExpected, Yields, NamesById;
    var p, f := ShellbagsPass(parentOf), L[i].facts;
    ShellbagsShape(parentOf);
    ShellbagsNames(parentOf);
    ShellbagsSigns(parentOf, f, Matched(p, f, L));
    PassYields(p, L, i, base);
    SlotFinds(p, f, L, 2, DOWNLOADS, WithParents(parentOf, InFolder), [FolderRelated()]);
  }

  lemma FolderHosts(parentOf: Facts -> string, f: Facts, g: Facts)
    ensures UnderFolder(parentOf, f, g) || InFolder(parentOf, f, g) || SameFolder(parentOf, f, g) ==> HostsAgree(f, g)
    ensures SameShortcut(f, g) || SameTarget(f, g) || TargetDownload(f, g) ==> HostsAgree(f, g)
  {
    hide Clean, Normalized, TimesAgree, BaseName;
    WithinAgrees(f, g);
  }

  lemma ShellbagsHosts(parentOf: Facts -> string)
    ensures RespectsHosts(ShellbagsPass(parentOf))
  {
    hide ShellbagsPass, HostsAgree, UnderFolder, InFolder;
    var p := ShellbagsPass(parentOf);
    ShellbagsShape(parentOf);
    forall k, f: Facts, y: Snap | 0 <= k < |p.slots| && p.slots[k].matches(f, y) ensures HostsAgree(f, y.facts) {
      FolderHosts(parentOf, f, y.facts);
    }
  }

  // ---- the jump list pass --------------------------------------------------------------

  lemma JumplistsShape(folderOf: Facts -> string)
    ensures var p := JumplistsPass(folderOf);
      && p.finder == Scan && |p.slots| == 4 && p.selects == IsJump
      && p.slots[0] == PlainSlot(IsShortcut, SameShortcut, First, ["lnk_correlated"], [], 0.9, [])
      && SlotIs(p.slots[1], FOLDERS, WithParents(folderOf, SameFolder), [])
      && SlotIs(p.slots[2], RECYCLED, SameTarget, [DeletedOpened()])
      && SlotIs(p.slots[3], DOWNLOADS, TargetDownload, [DownloadOpened()])
  {
    hide SameShortcut, WithParents, SameTarget, DeletedOpened, TargetDownload, DownloadOpened;
  }

  lemma JumpKinds(f: Facts)
    requires IsJump(f)
    ensures !IsShortcut(f) && f.kind !in FOLDERS + RECYCLED + DOWNLOADS
  {
    assert SourceText(f) == "jlecmd";
    assert |"jlecmd"| == 6 && |"lecmd"| == 5 && |"native_lnk"| == 10;
  }

  lemma JumplistsNew()
    ensures DeletedOpened().kind !in MERGED_KINDS
    ensures DownloadOpened().kind !in MERGED_KINDS
  {}

  lemma JumplistsSeparate(folderOf: Facts -> string)
    ensures Separate(JumplistsPass(folderOf)) && Plain(JumplistsPass(folderOf))
  {
    hide JumplistsPass, MERGED_KINDS, DeletedOpened, DownloadOpened, DOWNLOADS, RECYCLED, FOLDERS;
    JumplistsShape(folderOf);
    var p := JumplistsPass(folderOf);
    forall f: Facts, k | 0 <= k < |p.slots| && p.selects(f) ensures !p.slots[k].from(f) { JumpKinds(f); }
    JumplistsNew();
    PlainIsSeparate(JumplistsPass(folderOf));
  }

  function JumplistsExpected(f: Facts, found: seq<seq<Snap>>): seq<Sign> {
    If(HasMatch(found, 2), Sign("deleted_file_was_opened", [("recycle_event", 2)]))
    + If(HasMatch(found, 3), Sign("downloaded_file_opened", [("download_event", 3)]))
  }

  lemma JumplistsNames(folderOf: Facts -> string)
    ensures NamesById(JumplistsPass(folderOf).slots)
  {
    hide JumplistsPass;
    JumplistsShape(folderOf);
  }

  lemma JumplistsSigns(folderOf: Facts -> string, f: Facts, found: seq<seq<Snap>>)
    requires |found| == 4
    ensures |JumplistsPass(folderOf).slots| == 4
    ensures SignsUpTo(JumplistsPass(folderOf).slots, 4, f, found) ==
      JumplistsExpected(f, found)
  {
    hide JumplistsPass, Applying, Signs, SignsUpTo, If;
    JumplistsShape(folderOf);
    Unrolled(JumplistsPass(folderOf).slots, f, found);
    NoneApplying(f, found);
    OneSign(DeletedOpened(), f, found, 2);
    OneSign(DownloadOpened(), f, found, 3);
  }

  /** A jump-list entry yields an activity for the first matching recycled file and one for the first
      matching download. */
  lemma JumplistsDerives(folderOf: Facts -> string, L: seq<Snap>, i: nat, base: nat)
    requires i < |L| && IsJump(L[i].facts)
    ensures var p, f := JumplistsPass(folderOf), L[i].facts;
      var found := Matched(p, f, L);
      && |found| == 4
      && Yields(ItemOutcome(p, L, i, base).derived, JumplistsExpected(f, found), found, base)
      && FirstOf(found[2], L, RECYCLED, f, SameTarget)
      && FirstOf(found[3], L, DOWNLOADS, f, TargetDownload)
  {
    hide JumplistsPass, Matched, ItemOutcome, SignsUpTo, FirstOf, SlotIs, JumplistsExpected, Yields, NamesById;
    var p, f := JumplistsPass(folderOf), L[i].facts;
    JumplistsShape(folderOf);
    JumplistsNames(folderOf);
    JumplistsSigns(folderOf, f, Matched(p, f, L));
    PassYields(p, L, i, base);
    SlotFinds(p, f, L, 2, RECYCLED, SameTarget, [DeletedOpened()]);
    SlotFinds(p, f, L, 3, DOWNLOADS, TargetDownload, [DownloadOpened()]);
  }

  lemma JumplistsHosts(folderOf: Facts -> string)
    ensures RespectsHosts(JumplistsPass(folderOf))
  {
    hide JumplistsPass, HostsAgree, SameFolder, SameShortcut, SameTarget, TargetDownload;
    var p := JumplistsPass(folderOf);
    JumplistsShape(folderOf);
    forall k, f: Facts, y: Snap | 0 <= k < |p.slots| && p.slots[k].matches(f, y) ensures HostsAgree(f, y.facts) {
      FolderHosts(folderOf, f, y.facts);
    }
  }

  // ---- the detection pass --------------------------------------------------------------

  lemma DefenderShape()
    ensures var p := DefenderPass();
      && p.finder == Scan && |p.slots| == 5 && p.selects == OfKind(DETECTIONS)
      && SlotIs(p.slots[0], DOWNLOADS, ThreatDownload, [ThreatFetched()])
      && SlotIs(p.slots[1], EXECUTION_KINDS, ThreatExecution, [ThreatRun()])
      && SlotIs(p.slots[2], THREAT_PERSISTENCE, ThreatPersistence, [ThreatKept()])
      && SlotIs(p.slots[3], USAGES, ThreatNetwork, [Quarantined(), Unremediated(), Remediated()])
      && SlotIs(p.slots[4], USAGES, SevereNetwork, [])
  {
    hide ThreatDownload, ThreatFetched, ThreatExecution, ThreatRun, ThreatPersistence, ThreatKept, ThreatNetwork,
      Quarantined, Unremediated, Remediated, SevereNetwork;
  }

  lemma DefenderKinds()
    ensures DETECTIONS !! DOWNLOADS + EXECUTION_KINDS + THREAT_PERSISTENCE + USAGES
  {}

  lemma DefenderNew()
    ensures ThreatFetched().kind !in MERGED_KINDS
    ensures ThreatRun().kind !in MERGED_KINDS
    ensures ThreatKept().kind !in MERGED_KINDS
    ensures Quarantined().kind !in MERGED_KINDS
    ensures Unremediated().kind !in MERGED_KINDS
    ensures Remediated().kind !in MERGED_KINDS
  {}

  lemma DefenderSeparate()
    ensures Separate(DefenderPass()) && Plain(DefenderPass())
  {
    hide DefenderPass, MERGED_KINDS, ThreatFetched, ThreatRun, ThreatKept, Quarantined, Unremediated, Remediated,
      DOWNLOADS, USAGES, THREAT_PERSISTENCE, DETECTIONS, EXECUTION_KINDS;
    DefenderShape();
    DefenderKinds();
    DefenderNew();
    PlainIsSeparate(DefenderPass());
  }

  function DefenderExpected(f: Facts, found: seq<seq<Snap>>): seq<Sign> {
    If(HasMatch(found, 0), Sign("detected_downloaded_file", [("download_event", 0)]))
    + If(HasMatch(found, 1), Sign("detected_executed_file", [("executed_event", 1)]))
    + If(HasMatch(found, 2), Sign("detected_persistent_file", [("persistence_event", 2)]))
    + If(Says(f, "quarantine"), Sign("defender_quarantined_file", []))
    + If(Says(f, "failed"), Sign("defender_remediation_failed", []))
    + If(SaysRemediated(f), Sign("defender_remediated_threat", []))
  }

  lemma DefenderNames()
    ensures NamesById(DefenderPass().slots)
  {
    hide DefenderPass;
    DefenderShape();
  }

  lemma VerdictSigns(f: Facts, found: seq<seq<Snap>>)
    ensures Signs(Applying([Quarantined(), Unremediated(), Remediated()], f, found)) ==
      If(Says(f, "quarantine"), Sign("defender_quarantined_file", []))
      + If(Says(f, "failed"), Sign("defender_remediation_failed", []))
      + If(SaysRemediated(f), Sign("defender_remediated_threat", []))
  {
    hide Applying, Signs, If, Says, SaysRemediated;
    FreeSign(Quarantined(), f, found);
    FreeSign(Unremediated(), f, found);
    FreeSign(Remediated(), f, found);
    ThreeSigns(Quarantined(), Unremediated(), Remediated(), f, found);
  }

  lemma ThreatSigns(f: Facts, found: seq<seq<Snap>>)
    ensures Signs(Applying([ThreatFetched()], f, found)) ==
      If(HasMatch(found, 0), Sign("detected_downloaded_file", [("download_event", 0)]))
    ensures Signs(Applying([ThreatRun()], f, found)) ==
      If(HasMatch(found, 1), Sign("detected_executed_file", [("executed_event", 1)]))
    ensures Signs(Applying([ThreatKept()], f, found)) ==
      If(HasMatch(found, 2), Sign("detected_persistent_file", [("persistence_event", 2)]))
  {
    hide Applying, Signs, If, HasMatch;
    OneSign(ThreatFetched(), f, found, 0);
    OneSign(ThreatRun(), f, found, 1);
    OneSign(ThreatKept(), f, found, 2);
  }

  lemma DefenderSigns(f: Facts, found: seq<seq<Snap>>)
    requires |found| == 5
    ensures |DefenderPass().slots| == 5
    ensures SignsUpTo(DefenderPass().slots, 5, f, found) ==
      DefenderExpected(f, found)
  {
    hide DefenderPass, Applying, Signs, SignsUpTo, If, HasMatch, Says, SaysRemediated;
    hide ThreatFetched, ThreatRun, ThreatKept, Quarantined, Unremediated, Remediated;
    DefenderShape();
    Unrolled(DefenderPass().slots, f, found);
    NoneApplying(f, found);
    ThreatSigns(f, found);
    VerdictSigns(f, found);
  }

  /** A detection yields one activity per match among downloads, executions and persistence entries,
      naming the first match, and one per verdict its action or status states, in this order. */
  lemma DefenderDerives(L: seq<Snap>, i: nat, base: nat)
    requires i < |L| && L[i].facts.kind in DETECTIONS
    ensures var p, f := DefenderPass(), L[i].facts;
      var found := Matched(p, f, L);
      && |found| == 5
      && Yields(ItemOutcome(p, L, i, base).derived, DefenderExpected(f, found), found, base)
      && FirstOf(found[0], L, DOWNLOADS, f, ThreatDownload)
      && FirstOf(found[1], L, EXECUTION_KINDS, f, ThreatExecution)
      && FirstOf(found[2], L, THREAT_PERSISTENCE, f, ThreatPersistence)
  {
    hide DefenderPass, Matched, ItemOutcome, SignsUpTo, FirstOf, SlotIs, DefenderExpected, Yields, NamesById;
    var p, f := DefenderPass(), L[i].facts;
    DefenderShape();
    DefenderNames();
    DefenderSigns(f, Matched(p, f, L));
    PassYields(p, L, i, base);
    SlotFinds(p, f, L, 0, DOWNLOADS, ThreatDownload, [ThreatFetched()]);
    SlotFinds(p, f, L, 1, EXECUTION_KINDS, ThreatExecution, [ThreatRun()]);
    SlotFinds(p, f, L, 2, THREAT_PERSISTENCE, ThreatPersistence, [ThreatKept()]);
  }

  lemma DefenderHosts()
    ensures RespectsHosts(DefenderPass())
  {
    hide DefenderPass, HostsAgree, Normalized, FirstField, Clean;
    DefenderShape();
  }
}
