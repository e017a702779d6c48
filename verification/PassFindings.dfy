/** What each table pass reports, said on the recorded facts: on which entries an activity of which
    kind is due, and with which partner. `paths`, `parentOf`, `folderOf` and `lacksContent` are the
    functions of the facts that the passes are given. */
module PassFindings {
  import opened Text
  import opened Activities
  import opened Greedy
  import opened Provenance
  import opened TablePasses
  import opened Derivations
  import opened Findings
  import opened Kinds
  import opened StandardPasses
  import opened WindowsPasses
  import opened WindowsResults
  import opened RegistryScope
  import Bits

  // ---- shared conditions ------------------------------------------------------------------

  /** A key field without surrounding blanks and in lower case. */
  function Read(f: Facts, name: string): string {
    Normalized(Field(f, name))
  }

  /** The first of these key fields that is present, read like that. */
  function ReadFirst(f: Facts, names: seq<string>): string {
    Normalized(FirstField(f, names))
  }

  predicate Same(s: string, t: string) {
    s == t && s != ""
  }

  /** On one host, as far as both are known, and within these seconds, as far as both times are. */
  predicate Around(f: Facts, g: Facts, seconds: int) {
    OneHost(f, g) && (!f.stamp.GoodStamp? || !g.stamp.GoodStamp? || Apart(f, g, seconds))
  }

  /** `g` names no host other than that of `f`. */
  predicate NotElsewhere(f: Facts, g: Facts) {
    Normalized(HostText(g)) == "" || Normalized(HostText(g)) == Normalized(HostText(f))
  }

  /** `g` ran this path, by itself or within a command, or a process of this name. */
  predicate Launched(path: string, name: string, g: Facts) {
    || (path != "" && path == Read(g, "process_path"))
    || (path != "" && Contains(Read(g, "command_line"), path))
    || Same(name, Read(g, "process_name"))
  }

  predicate OneFile(f: Facts, g: Facts) {
    Same(Read(f, "file_path"), Read(g, "file_path")) || Same(Read(f, "file_name"), Read(g, "file_name"))
  }

  predicate HasFile(f: Facts) {
    Read(f, "file_path") != "" || Read(f, "file_name") != ""
  }

  const RUN_KINDS := {"program_execution", "powershell_execution"}

  /** The facts of `f` with the time of one of the two entries, the other's if that has none, and if
      asked for with the domain of `g`. */
  function Dated(itemFirst: bool, domain: bool): (Facts, Facts) -> Facts {
    (f: Facts, g: Facts) =>
      var mine, other := if itemFirst then f.stamp else g.stamp, if itemFirst then g.stamp else f.stamp;
      f.(stamp := if StampText(mine) != "" then mine else other,
         fields := if domain then f.fields["download_domain" := Field(g, "domain")] else f.fields)
  }

  function Download(when: (Facts, Facts) -> bool, about: (Facts, Facts) -> Facts): Option<Partner> {
    Some(Partner({"file_download"}, when, Some("download_event"), Some(about)))
  }

  lemma AroundIff(f: Facts, g: Facts, seconds: int)
    ensures Around(f, g, seconds) <==> HostsAgree(f, g) && TimesAgree(f, g, seconds)
    ensures Around(f, g, seconds) <==> Near(f, g, seconds)
    ensures OneHost(f, g) <==> HostsAgree(f, g)
    ensures NotElsewhere(f, g) <==> HostWithin(f, g)
  {
    hide Normalized, HostText;
  }

  lemma NamedSlots(p: Pass)
    requires NamesById(p.slots)
    ensures AllNamed(p.slots)
  {
    hide DistinctNames;
  }


  /** A pass reports what the recipe of one of its slots makes of an item and the slot's match. */
  lemma SlotReports(p: Pass, d: Finding, t: Partner, s: nat, r: Recipe, kinds: set<string>,
                    matches: (Facts, Facts) -> bool)
    requires p.finder.Scan? && s < |p.slots| && NamesById(p.slots)
    requires SlotIs(p.slots[s], kinds, matches, [r]) && d.partner == Some(t)
    requires forall j, x :: 0 <= j < |p.slots| && j != s && x in p.slots[j].derive ==> x.kind != r.kind
    requires forall f: Facts :: p.selects(f) && r.when(f) <==> d.of(f)
    requires r.kind == d.kind && r.needs == [s] && s in r.uses && KeepsOwner(r)
    requires t.link.Some? ==> (t.link.value, s) in r.links
    requires t.about.Some? ==> MakesOf(r, s, t.about.value)
    requires kinds == t.among && forall f: Facts, g: Facts :: p.selects(f) ==> (matches(f, g) <==> t.when(f, g))
    ensures Reports(p, d, s, r)
  {
    hide KeepsOwner, MakesOf, MakesOf, DistinctNames;
    NamedSlots(p);
    assert p.slots[s].derive == [r];
    assert OnlyIn([r], r);
  }

  /** A recipe that follows one match keeps the item's host and user. */
  lemma FollowKeepsOwner(slot: nat, itemTimeFirst: bool, domain: bool, r: Recipe)
    requires r.facts == DerivedFacts(slot, itemTimeFirst, domain)
    ensures KeepsOwner(r) && MakesOf(r, slot, Dated(itemTimeFirst, domain))
  {}

  // ---- network usage ------------------------------------------------------------------------

  function UsedName(f: Facts): string {
    ReadFirst(f, ["process_name", "application"])
  }

  /** A network usage record and the download of its program within two hours. */
  function DownloadedAndActive(): Finding {
    Finding("downloaded_and_network_active_program",
            (f: Facts) => f.kind == "application_network_usage" && (UsedName(f) != "" || Read(f, "process_path") != ""),
            Download((f: Facts, g: Facts) =>
              Around(f, g, 7200) && (Same(Read(f, "process_path"), Read(g, "file_path"))
                                     || Same(UsedName(f), Read(g, "file_name"))), Dated(true, true)))
  }

  lemma DownloadedAndActiveReported()
    ensures Reports(SrumPass(), DownloadedAndActive(), 2, NetworkActive())
  {
    hide SrumPass, NamesById, KeepsOwner, MakesOf, Around, Normalized, FirstField, Field;
    SrumShape();
    SrumNames();
    var p, d, r := SrumPass(), DownloadedAndActive(), NetworkActive();
    FollowKeepsOwner(2, true, true, r);
    forall f: Facts, g: Facts ensures UsageDownload(f, g) <==> d.partner.value.when(f, g) { AroundIff(f, g, 7200); }
    SlotReports(p, d, d.partner.value, 2, r, DOWNLOADS, UsageDownload);
  }

  lemma SrumStep()
    ensures Makes(SrumPass(), 4) && KeepsLinks(SrumPass())
  {
    hide Place, Normalized, Field, FirstField, SrumPass;
    SrumShape();
    SrumNames();
    NamedSlots(SrumPass());
    Early();
  }

  lemma SrumUnplaced()
    ensures Unplaced(DownloadedAndActive()) && Place(DownloadedAndActive().kind) == 4
  {
    hide Place, Read, ReadFirst;
    Early();
    RecordedHaveNoPlace();
  }

  // ---- PowerShell ---------------------------------------------------------------------------

  /** A download command and a download of its address, of its domain or to one of its paths. */
  predicate Fetches(paths: Facts -> seq<string>, f: Facts, g: Facts) {
    && Around(f, g, 7200)
    && (Same(Read(f, "url"), Read(g, "url")) || Same(Read(f, "domain"), Read(g, "domain"))
        || (Read(g, "file_path") != "" && Read(g, "file_path") in paths(f)))
  }

  function FetchedByShell(paths: Facts -> seq<string>): Finding {
    Finding("downloaded_and_executed_via_powershell", (f: Facts) => f.kind == "powershell_download",
            Download((f: Facts, g: Facts) => Fetches(paths, f, g), Dated(true, true)))
  }

  lemma ShellFetches(paths: Facts -> seq<string>, f: Facts, g: Facts)
    ensures ShellDownload(paths, f, g) <==> Fetches(paths, f, g)
  {
    hide Around, Near, Normalized, Field;
    AroundIff(f, g, 7200);
  }

  lemma FetchedByShellReported(paths: Facts -> seq<string>)
    ensures Reports(PowershellPass(paths), FetchedByShell(paths), 0, ShellFetch())
  {
    hide PowershellPass, NamesById, KeepsOwner, MakesOf, Around, Normalized, Field;
    PowershellShape(paths);
    PowershellNames(paths);
    var p, d, r := PowershellPass(paths), FetchedByShell(paths), ShellFetch();
    FollowKeepsOwner(0, true, true, r);
    forall f: Facts, g: Facts ensures WithPaths(paths, ShellDownload)(f, g) <==> d.partner.value.when(f, g) {
      ShellFetches(paths, f, g);
    }
    SlotReports(p, d, d.partner.value, 0, r, DOWNLOADS, WithPaths(paths, ShellDownload));
  }

  lemma PowershellStep(paths: Facts -> seq<string>)
    ensures Makes(PowershellPass(paths), 2) && KeepsLinks(PowershellPass(paths))
  {
    hide Place, Normalized, Field, FirstField, PowershellPass;
    PowershellShape(paths);
    PowershellNames(paths);
    NamedSlots(PowershellPass(paths));
    Early();
  }

  lemma PowershellUnplaced(paths: Facts -> seq<string>)
    ensures Unplaced(FetchedByShell(paths)) && Place(FetchedByShell(paths).kind) == 2
  {
    hide Place, Read, ReadFirst;
    Early();
    RecordedHaveNoPlace();
  }

  // ---- scheduled tasks ----------------------------------------------------------------------

  /** The last part of the command's path. */
  function CommandFile(f: Facts): string {
    Lower(BaseName(Read(f, "command")))
  }

  predicate IsTask(f: Facts) {
    f.kind in {"scheduled_task_definition", "scheduled_task_com_handler", "scheduled_task"}
  }

  /** A task and an execution of its command within two hours. */
  function TaskRan(): Finding {
    Finding("task_execution", IsTask,
            Some(Partner(RUN_KINDS, (f: Facts, g: Facts) =>
              Around(f, g, 7200) && Launched(Read(f, "command"), CommandFile(f), g), Some("executed_event"), None)))
  }

  /** A task and the download of what it runs within a day. */
  function DownloadPersisted(): Finding {
    Finding("downloaded_and_persisted", IsTask,
            Download((f: Facts, g: Facts) =>
              && Around(f, g, 86400)
              && (Same(Read(f, "command"), Read(g, "file_path")) || Same(CommandFile(f), Read(g, "file_name"))
                  || (Read(g, "file_path") != "" && JoinFilled(Read(f, "command"), Read(f, "arguments")) != ""
                      && Contains(JoinFilled(Read(f, "command"), Read(f, "arguments")), Read(g, "file_path")))),
              Dated(false, true)))
  }

  lemma TaskRunKeepsOwner()
    ensures KeepsOwner(TaskRun())
  {}

  lemma TaskPartners(f: Facts, g: Facts)
    ensures TaskExecution(f, g) <==> TaskRan().partner.value.when(f, g)
    ensures TaskDownload(f, g) <==> DownloadPersisted().partner.value.when(f, g)
  {
    hide Around, Near, Normalized, Field, BaseName, Contains, JoinFilled, Lower;
    AroundIff(f, g, 7200);
    AroundIff(f, g, 86400);
  }

  lemma TaskRanReported()
    ensures Reports(TasksPass(), TaskRan(), 2, TaskRun())
  {
    hide TasksPass, NamesById, KeepsOwner, MakesOf, TaskExecution;
    TasksShape();
    TasksNames();
    var d := TaskRan();
    TaskRunKeepsOwner();
    forall f: Facts, g: Facts ensures TaskExecution(f, g) <==> d.partner.value.when(f, g) { TaskPartners(f, g); }
    SlotReports(TasksPass(), d, d.partner.value, 2, TaskRun(), EXECUTION_KINDS, TaskExecution);
  }

  lemma DownloadPersistedReported()
    ensures Reports(TasksPass(), DownloadPersisted(), 3, TaskPersisted())
  {
    hide TasksPass, NamesById, KeepsOwner, MakesOf, TaskDownload;
    TasksShape();
    TasksNames();
    var d := DownloadPersisted();
    FollowKeepsOwner(3, false, true, TaskPersisted());
    forall f: Facts, g: Facts ensures TaskDownload(f, g) <==> d.partner.value.when(f, g) { TaskPartners(f, g); }
    SlotReports(TasksPass(), d, d.partner.value, 3, TaskPersisted(), DOWNLOADS, TaskDownload);
  }

  lemma TasksStep()
    ensures Makes(TasksPass(), 5) && KeepsLinks(TasksPass())
  {
    hide Place, Normalized, Field, FirstField, TasksPass;
    TasksShape();
    TasksNames();
    NamedSlots(TasksPass());
    TaskKinds();
  }

  lemma TasksUnplaced()
    ensures Unplaced(TaskRan()) && Place(TaskRan().kind) == 5
    ensures Unplaced(DownloadPersisted()) && Place(DownloadPersisted().kind) == 5
  {
    hide Place, Read, ReadFirst;
    TaskKinds();
    RecordedHaveNoPlace();
  }

  // ---- the recycle bin ----------------------------------------------------------------------

  predicate InBin(f: Facts) {
    f.kind == "file_recycled" && HasFile(f)
  }

  /** The recorded file name, or the last part of the path. */
  function LastName(g: Facts): string {
    if Field(g, "file_name") != "" then Read(g, "file_name") else Normalized(BaseName(Field(g, "file_path")))
  }

  /** A recycled file and its download within a week. */
  function DownloadDeleted(): Finding {
    Finding("deleted_download", InBin,
            Download((f: Facts, g: Facts) =>
              Around(f, g, 604800) && (Same(Read(f, "file_path"), Read(g, "file_path"))
                                       || Same(Read(f, "file_name"), LastName(g))), Dated(true, false)))
  }

  /** A recycled file and a detection in it. */
  function DetectedDeleted(): Finding {
    Finding("deleted_detected_file", InBin,
            Some(Partner({"defender_detection", "defender_action"}, (f: Facts, g: Facts) =>
              OneHost(f, g) && (Same(Read(f, "file_path"), Read(g, "path"))
                                || Same(Read(f, "file_name"), Normalized(BaseName(Read(g, "path"))))),
              Some("defender_event"), Some(Dated(true, false)))))
  }

  const STARTING_KINDS := {"scheduled_task_definition", "scheduled_task_com_handler", "scheduled_task",
                           "scheduled_task_created", "scheduled_task_updated", "persistence", "service_modified",
                           "service_created"}

  /** A recycled file and what would start it. */
  function PersistentDeleted(): Finding {
    Finding("deleted_persistent_file", InBin,
            Some(Partner(STARTING_KINDS, (f: Facts, g: Facts) =>
              && OneHost(f, g)
              && ((Read(f, "file_path") != ""
                   && Contains(ReadFirst(g, ["command", "path", "command_line"]), Read(f, "file_path")))
                  || (Read(f, "file_name") != ""
                      && Contains(ReadFirst(g, ["command", "path", "command_line"]), Read(f, "file_name")))
                  || Same(Read(f, "file_name"), ReadFirst(g, ["task_name", "service_name"]))),
              Some("persistence_event"), Some(Dated(true, false)))))
  }

  lemma BinPartners(f: Facts, g: Facts)
    ensures RecycledDownload(f, g) <==> DownloadDeleted().partner.value.when(f, g)
    ensures RecycledDetection(f, g) <==> DetectedDeleted().partner.value.when(f, g)
    ensures RecycledPersistence(f, g) <==> PersistentDeleted().partner.value.when(f, g)
  {
    hide Around, Near, OneHost, HostsAgree, Normalized, Field, FirstField, BaseName, Contains;
    AroundIff(f, g, 604800);
  }

  lemma DownloadDeletedReported(lacksContent: Facts -> bool)
    ensures Reports(RecyclePass(lacksContent), DownloadDeleted(), 0, DeletedDownload())
  {
    hide RecyclePass, NamesById, KeepsOwner, MakesOf, RecycledDownload, Normalized, Field;
    RecycleShape(lacksContent);
    RecycleNames(lacksContent);
    var p, d := RecyclePass(lacksContent), DownloadDeleted();
    FollowKeepsOwner(0, true, false, DeletedDownload());
    forall f: Facts, g: Facts ensures RecycledDownload(f, g) <==> d.partner.value.when(f, g) { BinPartners(f, g); }
    SlotReports(p, d, d.partner.value, 0, DeletedDownload(), DOWNLOADS, RecycledDownload);
  }

  lemma DetectedDeletedReported(lacksContent: Facts -> bool)
    ensures Reports(RecyclePass(lacksContent), DetectedDeleted(), 1, DeletedDetected())
  {
    hide RecyclePass, NamesById, KeepsOwner, MakesOf, RecycledDetection, Normalized, Field;
    RecycleShape(lacksContent);
    RecycleNames(lacksContent);
    var p, d := RecyclePass(lacksContent), DetectedDeleted();
    FollowKeepsOwner(1, true, false, DeletedDetected());
    forall f: Facts, g: Facts ensures RecycledDetection(f, g) <==> d.partner.value.when(f, g) { BinPartners(f, g); }
    SlotReports(p, d, d.partner.value, 1, DeletedDetected(), DETECTIONS, RecycledDetection);
  }

  lemma PersistentDeletedReported(lacksContent: Facts -> bool)
    ensures Reports(RecyclePass(lacksContent), PersistentDeleted(), 4, DeletedPersistent())
  {
    hide RecyclePass, NamesById, KeepsOwner, MakesOf, RecycledPersistence, Normalized, Field;
    RecycleShape(lacksContent);
    RecycleNames(lacksContent);
    var p, d := RecyclePass(lacksContent), PersistentDeleted();
    FollowKeepsOwner(4, true, false, DeletedPersistent());
    forall f: Facts, g: Facts ensures RecycledPersistence(f, g) <==> d.partner.value.when(f, g) { BinPartners(f, g); }
    SlotReports(p, d, d.partner.value, 4, DeletedPersistent(), PERSISTENT, RecycledPersistence);
  }

  lemma RecycleStep(lacksContent: Facts -> bool)
    ensures Makes(RecyclePass(lacksContent), 6) && KeepsLinks(RecyclePass(lacksContent))
  {
    hide Place, Normalized, Field, FirstField, RecyclePass;
    RecycleShape(lacksContent);
    RecycleNames(lacksContent);
    NamedSlots(RecyclePass(lacksContent));
    BinKinds();
  }

  lemma RecycleUnplaced()
    ensures Unplaced(DownloadDeleted()) && Place(DownloadDeleted().kind) == 6
    ensures Unplaced(DetectedDeleted()) && Place(DetectedDeleted().kind) == 6
    ensures Unplaced(PersistentDeleted()) && Place(PersistentDeleted().kind) == 6
  {
    hide Place, Read, ReadFirst;
    BinKinds();
    RecordedHaveNoPlace();
  }

  // ---- folders ------------------------------------------------------------------------------

  /** A visited folder and a download whose parent folder it is. */
  function DownloadInFolder(parentOf: Facts -> string): Finding {
    Finding("folder_related_to_deleted_download",
            (f: Facts) => f.kind == "folder_accessed" && Read(f, "file_path") != "",
            Some(Partner({"file_download"}, (f: Facts, g: Facts) =>
              NotElsewhere(f, g) && parentOf(g) == Read(f, "file_path"), None, Some(Dated(true, false)))))
  }

  lemma DownloadInFolderReported(parentOf: Facts -> string)
    ensures Reports(ShellbagsPass(parentOf), DownloadInFolder(parentOf), 2, FolderRelated())
  {
    hide ShellbagsPass, NamesById, KeepsOwner, MakesOf, Normalized, Field, HostText;
    ShellbagsShape(parentOf);
    ShellbagsNames(parentOf);
    var p, d, r := ShellbagsPass(parentOf), DownloadInFolder(parentOf), FolderRelated();
    FollowKeepsOwner(2, true, false, r);
    forall f: Facts, g: Facts ensures WithParents(parentOf, InFolder)(f, g) <==> d.partner.value.when(f, g) {
      AroundIff(f, g, 0);
      assert WithParents(parentOf, InFolder)(f, g) == InFolder(parentOf, f, g);
    }
    SlotReports(p, d, d.partner.value, 2, r, DOWNLOADS, WithParents(parentOf, InFolder));
  }

  lemma ShellbagsStep(parentOf: Facts -> string)
    ensures Makes(ShellbagsPass(parentOf), 7) && KeepsLinks(ShellbagsPass(parentOf))
  {
    hide Place, Normalized, Field, FirstField, ShellbagsPass;
    ShellbagsShape(parentOf);
    ShellbagsNames(parentOf);
    NamedSlots(ShellbagsPass(parentOf));
    OpenedKinds();
  }

  lemma ShellbagsUnplaced(parentOf: Facts -> string)
    ensures Unplaced(DownloadInFolder(parentOf)) && Place(DownloadInFolder(parentOf).kind) == 7
  {
    hide Place, Read, ReadFirst;
    OpenedKinds();
    RecordedHaveNoPlace();
  }

  // ---- jump lists ---------------------------------------------------------------------------

  /** A file access read from a jump list. */
  predicate FromJumpList(f: Facts) {
    && f.kind in {"opened_file", "script_opened", "recent_file_opened"}
    && Lower(Field(f, "source")) == "jlecmd" && Read(f, "file_path") != ""
  }

  predicate OneTarget(f: Facts, g: Facts) {
    && NotElsewhere(f, g)
    && (Read(g, "file_path") == Read(f, "file_path")
        || Same(Read(g, "file_name"), Normalized(BaseName(Read(f, "file_path")))))
  }

  /** A jump-list entry and the recycling of its target. */
  function OpenedAndDeleted(): Finding {
    Finding("deleted_file_was_opened", FromJumpList,
            Some(Partner({"file_recycled"}, OneTarget, Some("recycle_event"), Some(Dated(true, false)))))
  }

  /** A jump-list entry and the download of its target within a week. */
  function OpenedDownload(): Finding {
    Finding("downloaded_file_opened", FromJumpList,
            Download((f: Facts, g: Facts) => OneTarget(f, g)
              && (!f.stamp.GoodStamp? || !g.stamp.GoodStamp? || Apart(f, g, 604800)), Dated(true, true)))
  }

  lemma OpenedAndDeletedReported(folderOf: Facts -> string)
    ensures Reports(JumplistsPass(folderOf), OpenedAndDeleted(), 2, DeletedOpened())
  {
    hide JumplistsPass, NamesById, KeepsOwner, MakesOf, Normalized, Field, HostText, BaseName;
    JumplistsShape(folderOf);
    JumplistsNames(folderOf);
    var d := OpenedAndDeleted();
    FollowKeepsOwner(2, true, false, DeletedOpened());
    SlotReports(JumplistsPass(folderOf), d, d.partner.value, 2, DeletedOpened(), RECYCLED, SameTarget);
  }

  lemma OpenedDownloadReported(folderOf: Facts -> string)
    ensures Reports(JumplistsPass(folderOf), OpenedDownload(), 3, DownloadOpened())
  {
    hide JumplistsPass, NamesById, KeepsOwner, MakesOf, Normalized, Field, HostText, BaseName;
    JumplistsShape(folderOf);
    JumplistsNames(folderOf);
    var d := OpenedDownload();
    FollowKeepsOwner(3, true, true, DownloadOpened());
    SlotReports(JumplistsPass(folderOf), d, d.partner.value, 3, DownloadOpened(), DOWNLOADS, TargetDownload);
  }

  lemma JumplistsStep(folderOf: Facts -> string)
    ensures Makes(JumplistsPass(folderOf), 8) && KeepsLinks(JumplistsPass(folderOf))
  {
    hide Place, Normalized, Field, FirstField, JumplistsPass;
    JumplistsShape(folderOf);
    JumplistsNames(folderOf);
    NamedSlots(JumplistsPass(folderOf));
    OpenedKinds();
  }

  lemma JumplistsUnplaced()
    ensures Unplaced(OpenedAndDeleted()) && Place(OpenedAndDeleted().kind) == 8
    ensures Unplaced(OpenedDownload()) && Place(OpenedDownload().kind) == 8
  {
    hide Place, Read, ReadFirst;
    OpenedKinds();
    RecordedHaveNoPlace();
  }

  // ---- downloads ----------------------------------------------------------------------------

  /** A download and an execution of it within half an hour. */
  function DownloadExecuted(): Finding {
    Finding("downloaded_and_executed", (f: Facts) => f.kind == "file_download" && HasFile(f),
            Some(Partner(RUN_KINDS + {"execution_candidate"}, (f: Facts, g: Facts) =>
              Around(f, g, 1800) && Launched(Read(f, "file_path"), Read(f, "file_name"), g), Some("executed_event"),
              Some((f: Facts, g: Facts) => f))))
  }

  lemma ExecutedSlot()
    ensures var s := BrowserSlots();
      && |s| == 4 && s[0].derive == [] && s[1].derive == [] && s[2].derive == []
      && SlotIs(s[3], RUN_KINDS + {"execution_candidate"}, ExecutionMatches, [ExecutedRecipe()])
      && forall k :: 0 <= k < 4 ==> s[k].link.None?
  {
    hide ExecutedRecipe, AccessMatches, CreationMatches, ExecutionMatches, SameText, Clean;
  }

  lemma ExecutedNames()
    ensures DistinctNames(ExecutedRecipe().links) && KeepsOwner(ExecutedRecipe()) && !ExecutedRecipe().byEvent
    ensures MakesOf(ExecutedRecipe(), 3, DownloadExecuted().partner.value.about.value)
  {
    assert |"executed_event"| == 14 && |"created_file_event"| == 18;
  }

  lemma BrowserNames()
    ensures NamesById(BrowserSlots())
  {
    hide BrowserSlots, ExecutedRecipe, DistinctNames;
    ExecutedSlot();
    ExecutedNames();
  }

  lemma ExecutionPartners(f: Facts, g: Facts)
    ensures ExecutionMatches(f, g) <==> DownloadExecuted().partner.value.when(f, g)
  {
    hide Around, HostsAgree, TimesAgree, Normalized, Field, Contains;
    AroundIff(f, g, 1800);
  }

  lemma DownloadExecutedReported()
    ensures Reports(BrowserPass(), DownloadExecuted(), 3, ExecutedRecipe())
  {
    hide BrowserSlots, NamesById, KeepsOwner, MakesOf, ExecutionMatches, Normalized, Field;
    ExecutedSlot();
    ExecutedNames();
    BrowserNames();
    var d := DownloadExecuted();
    forall f: Facts, g: Facts ensures ExecutionMatches(f, g) <==> d.partner.value.when(f, g) {
      ExecutionPartners(f, g);
    }
    SlotReports(BrowserPass(), d, d.partner.value, 3, ExecutedRecipe(), RUN_KINDS + {"execution_candidate"},
                ExecutionMatches);
  }

  lemma BrowserStep()
    ensures Makes(BrowserPass(), 1) && KeepsLinks(BrowserPass())
  {
    hide Place, BrowserSlots, SlotIs, IsDownload;
    ExecutedSlot();
    assert BrowserSlots()[3].derive == [ExecutedRecipe()] by { BrowserShape(); }
    BrowserNames();
    NamedSlots(BrowserPass());
    Early();
  }

  lemma DownloadExecutedUnplaced()
    ensures Unplaced(DownloadExecuted()) && Place(DownloadExecuted().kind) == 1
  {
    hide Place, Read, ReadFirst;
    Early();
    RecordedHaveNoPlace();
  }

  // ---- observed programs --------------------------------------------------------------------

  /** An observed program and its download within a day. */
  function DownloadObserved(): Finding {
    Finding("downloaded_and_observed_program",
            (f: Facts) => f.kind == "program_inventory" || f.kind == "execution_candidate",
            Download((f: Facts, g: Facts) => Around(f, g, 86400) && OneFile(f, g), Dated(false, true)))
  }

  function ObservedRecipe(): Recipe {
    Recipe("downloaded_and_observed_program", (f: Facts) => true, [0], ObservedFacts, [0, 1], [0],
           [("download_event", 0)], false, ["download", "execution_artifact"], [], ObservedConfidence)
  }

  lemma ObservedSlots()
    ensures var p := ArtifactsPass();
      && p.finder == Scan && |p.slots| == 4
      && SlotIs(p.slots[0], DOWNLOADS, ArtifactDownload, [ObservedRecipe()])
      && p.slots[1].derive == [] && p.slots[2].derive == [] && p.slots[3].derive == []
  {
    hide ArtifactDownload, ArtifactFile, ArtifactExecution, ArtifactDetection, ObservedFacts, ObservedConfidence;
  }

  lemma ArtifactsNames()
    ensures NamesById(ArtifactsPass().slots) && KeepsOwner(ObservedRecipe())
    ensures MakesOf(ObservedRecipe(), 0, Dated(false, true))
  {
    hide ArtifactsPass;
    ObservedSlots();
  }

  lemma ObservedPartners(f: Facts, g: Facts)
    ensures ArtifactDownload(f, g) <==> DownloadObserved().partner.value.when(f, g)
  {
    hide Around, HostsAgree, TimesAgree, Normalized, Field;
    AroundIff(f, g, 86400);
  }

  lemma DownloadObservedReported()
    ensures Reports(ArtifactsPass(), DownloadObserved(), 0, ObservedRecipe())
  {
    hide ArtifactsPass, NamesById, KeepsOwner, MakesOf, ArtifactDownload;
    ObservedSlots();
    ArtifactsNames();
    ObservedItems();
    var d := DownloadObserved();
    forall f: Facts, g: Facts ensures ArtifactDownload(f, g) <==> d.partner.value.when(f, g) {
      ObservedPartners(f, g);
    }
    SlotReports(ArtifactsPass(), d, d.partner.value, 0, ObservedRecipe(), DOWNLOADS, ArtifactDownload);
  }

  lemma ObservedItems()
    ensures forall f: Facts :: ArtifactsPass().selects(f) <==>
      f.kind == "program_inventory" || f.kind == "execution_candidate"
  {}

  /** Cross-references go into observed programs only, and no pass derives those. */
  lemma ArtifactsStep()
    ensures Makes(ArtifactsPass(), 3) && KeepsLinks(ArtifactsPass())
  {
    hide Place, ArtifactsPass;
    ObservedSlots();
    ArtifactsNames();
    NamedSlots(ArtifactsPass());
    ObservedItems();
    Early();
    RecordedHaveNoPlace();
  }

  lemma DownloadObservedUnplaced()
    ensures Unplaced(DownloadObserved()) && Place(DownloadObserved().kind) == 3
  {
    hide Place;
    Early();
    RecordedHaveNoPlace();
  }

  // ---- detections ---------------------------------------------------------------------------

  predicate IsDetection(f: Facts) {
    f.kind in {"defender_detection", "defender_action"}
  }

  /** The last part of the path of the threat. */
  function ThreatFile(f: Facts): string {
    Normalized(BaseName(Read(f, "path")))
  }

  /** A detection in a file downloaded within a day. */
  function DownloadDetected(): Finding {
    Finding("detected_downloaded_file", IsDetection,
            Download((f: Facts, g: Facts) =>
              Around(f, g, 86400) && (Same(Read(f, "path"), Read(g, "file_path"))
                                      || Same(ThreatFile(f), Read(g, "file_name"))), Dated(true, true)))
  }

  /** A detection in a file executed within a day. */
  function ExecutionDetected(): Finding {
    Finding("detected_executed_file", IsDetection,
            Some(Partner(RUN_KINDS, (f: Facts, g: Facts) =>
              Around(f, g, 86400) && Launched(Read(f, "path"), ThreatFile(f), g), Some("executed_event"),
              Some(Dated(true, false)))))
  }

  const RESTARTING_KINDS := {"scheduled_task_definition", "scheduled_task_com_handler", "scheduled_task", "persistence",
                             "service_modified"}

  /** A detection in a file and what would start it. */
  function PersistenceDetected(): Finding {
    Finding("detected_persistent_file", IsDetection,
            Some(Partner(RESTARTING_KINDS, (f: Facts, g: Facts) =>
              && OneHost(f, g) && ReadFirst(g, ["command", "path", "image_path", "service_dll"]) != ""
              && ((Read(f, "path") != ""
                   && Contains(ReadFirst(g, ["command", "path", "image_path", "service_dll"]), Read(f, "path")))
                  || (ThreatFile(f) != ""
                      && Contains(ReadFirst(g, ["command", "path", "image_path", "service_dll"]), ThreatFile(f)))),
              Some("persistence_event"), Some(Dated(true, false)))))
  }

  /** The action or the status of the detection contains this word. */
  predicate Stated(f: Facts, word: string) {
    Contains(Read(f, "action"), word) || Contains(Read(f, "status"), word)
  }

  /** A detection that states one of these words. */
  function VerdictOn(kind: string, words: set<string>): Finding {
    Finding(kind,
            (f: Facts) => IsDetection(f) && exists word :: word in words && Stated(f, word), None)
  }

  lemma ThreatPartners(f: Facts, g: Facts)
    ensures ThreatDownload(f, g) <==> DownloadDetected().partner.value.when(f, g)
    ensures ThreatExecution(f, g) <==> ExecutionDetected().partner.value.when(f, g)
    ensures ThreatPersistence(f, g) <==> PersistenceDetected().partner.value.when(f, g)
  {
    hide Around, Near, OneHost, HostsAgree, Normalized, Field, FirstField, BaseName, Contains;
    AroundIff(f, g, 86400);
  }

  lemma DownloadDetectedReported()
    ensures Reports(DefenderPass(), DownloadDetected(), 0, ThreatFetched())
  {
    hide DefenderPass, NamesById, KeepsOwner, MakesOf, ThreatDownload;
    DefenderShape();
    DefenderNames();
    var d := DownloadDetected();
    FollowKeepsOwner(0, true, true, ThreatFetched());
    forall f: Facts, g: Facts ensures ThreatDownload(f, g) <==> d.partner.value.when(f, g) { ThreatPartners(f, g); }
    SlotReports(DefenderPass(), d, d.partner.value, 0, ThreatFetched(), DOWNLOADS, ThreatDownload);
  }

  lemma ExecutionDetectedReported()
    ensures Reports(DefenderPass(), ExecutionDetected(), 1, ThreatRun())
  {
    hide DefenderPass, NamesById, KeepsOwner, MakesOf, ThreatExecution;
    DefenderShape();
    DefenderNames();
    var d := ExecutionDetected();
    FollowKeepsOwner(1, true, false, ThreatRun());
    forall f: Facts, g: Facts ensures ThreatExecution(f, g) <==> d.partner.value.when(f, g) { ThreatPartners(f, g); }
    SlotReports(DefenderPass(), d, d.partner.value, 1, ThreatRun(), EXECUTION_KINDS, ThreatExecution);
  }

  lemma PersistenceDetectedReported()
    ensures Reports(DefenderPass(), PersistenceDetected(), 2, ThreatKept())
  {
    hide DefenderPass, NamesById, KeepsOwner, MakesOf, ThreatPersistence;
    DefenderShape();
    DefenderNames();
    var d := PersistenceDetected();
    FollowKeepsOwner(2, true, false, ThreatKept());
    forall f: Facts, g: Facts ensures ThreatPersistence(f, g) <==> d.partner.value.when(f, g) { ThreatPartners(f, g); }
    SlotReports(DefenderPass(), d, d.partner.value, 2, ThreatKept(), THREAT_PERSISTENCE, ThreatPersistence);
  }

  lemma VerdictRecipes()
    ensures OnlyIn([Quarantined(), Unremediated(), Remediated()], Quarantined())
    ensures OnlyIn([Quarantined(), Unremediated(), Remediated()], Unremediated())
    ensures OnlyIn([Quarantined(), Unremediated(), Remediated()], Remediated())
    ensures KeepsOwner(Quarantined()) && KeepsOwner(Unremediated()) && KeepsOwner(Remediated())
  {
    hide Says, SaysRemediated;
    assert |"defender_quarantined_file"| == 25 && |"defender_remediation_failed"| == 27;
    assert |"defender_remediated_threat"| == 26;
  }

  lemma VerdictReported(kind: string, words: set<string>, r: Recipe)
    requires r in [Quarantined(), Unremediated(), Remediated()] && r.kind == kind
    requires forall f: Facts :: r.when(f) <==> exists word :: word in words && Stated(f, word)
    ensures Reports(DefenderPass(), VerdictOn(kind, words), 3, r)
  {
    hide DefenderPass, NamesById, KeepsOwner, MakesOf, OnlyIn, Stated, SlotIs, AllNamed;
    VerdictSlots();
    DefenderNames();
    NamedSlots(DefenderPass());
    VerdictRecipes();
  }

  lemma VerdictSlots()
    ensures var p := DefenderPass();
      && p.finder == Scan && |p.slots| == 5 && (forall f: Facts :: p.selects(f) <==> IsDetection(f))
      && p.slots[0].derive == [ThreatFetched()] && p.slots[1].derive == [ThreatRun()]
      && p.slots[2].derive == [ThreatKept()] && p.slots[4].derive == []
      && p.slots[3].derive == [Quarantined(), Unremediated(), Remediated()]
  {
    hide DefenderPass;
    DefenderShape();
  }

  lemma VerdictsReported()
    ensures Reports(DefenderPass(), VerdictOn("defender_quarantined_file", {"quarantine"}), 3, Quarantined())
    ensures Reports(DefenderPass(), VerdictOn("defender_remediation_failed", {"failed"}), 3, Unremediated())
    ensures Reports(DefenderPass(), VerdictOn("defender_remediated_threat", {"removed", "cleaned", "remediated"}), 3,
                    Remediated())
  {
    hide DefenderPass, Reports, Derives, Contains, Normalized, Field, Stated;
    forall f: Facts
      ensures Says(f, "quarantine") <==> Stated(f, "quarantine")
      ensures Says(f, "failed") <==> Stated(f, "failed")
      ensures SaysRemediated(f) <==> Stated(f, "removed") || Stated(f, "cleaned") || Stated(f, "remediated")
    {
      Statements(f);
    }
    VerdictReported("defender_quarantined_file", {"quarantine"}, Quarantined());
    VerdictReported("defender_remediation_failed", {"failed"}, Unremediated());
    VerdictReported("defender_remediated_threat", {"removed", "cleaned", "remediated"}, Remediated());
  }

  lemma Statements(f: Facts)
    ensures forall word :: Says(f, word) <==> Stated(f, word)
  {
    hide Contains, Normalized, Field;
  }

  lemma LinklessDetections()
    ensures forall k :: 0 <= k < |DefenderPass().slots| ==> DefenderPass().slots[k].link.None?
  {
    hide DefenderPass;
    DefenderShape();
  }

  lemma DefenderStep()
    ensures Makes(DefenderPass(), 11) && KeepsLinks(DefenderPass())
  {
    hide Place, Normalized, Field, DefenderPass, SlotIs;
    LinklessDetections();
    VerdictSlots();
    DefenderNames();
    NamedSlots(DefenderPass());
    ThreatKinds();
    VerdictKinds();
  }

  lemma DetectionsUnplaced()
    ensures Unplaced(DownloadDetected()) && Place(DownloadDetected().kind) == 11
    ensures Unplaced(ExecutionDetected()) && Place(ExecutionDetected().kind) == 11
    ensures Unplaced(PersistenceDetected()) && Place(PersistenceDetected().kind) == 11
    ensures forall kind, words :: Unplaced(VerdictOn(kind, words))
    ensures Place("defender_quarantined_file") == 11 && Place("defender_remediation_failed") == 11
      && Place("defender_remediated_threat") == 11
  {
    hide Place, Read, ReadFirst, Contains;
    ThreatKinds();
    VerdictKinds();
    RecordedHaveNoPlace();
  }

  // ---- transfer jobs --------------------------------------------------------------------------

  function JobFile(f: Facts): string {
    ReadFirst(f, ["local_path", "file_path"])
  }

  predicate IsTransfer(f: Facts) {
    && f.kind in {"background_download", "bits_notify_persistence"}
    && (JobFile(f) != "" || ReadFirst(f, ["remote_url", "url"]) != "")
  }

  /** A transfer job and a detection in the file that it wrote; its key field may hold an event, so
      nothing is said of it. */
  function TransferDetected(): Finding {
    Finding("bits_download_detected_by_defender", IsTransfer,
            Some(Partner({"defender_detection"}, (f: Facts, g: Facts) =>
              NotElsewhere(f, g) && Same(JobFile(f), Read(g, "path")), None, Some(Dated(true, false)))))
  }

  predicate RunsJobFile(t: Bits.Texts, f: Facts, g: Facts) {
    && NotElsewhere(f, g) && (!f.stamp.GoodStamp? || !g.stamp.GoodStamp? || Apart(f, g, 86400))
    && (Same(JobFile(f), ReadFirst(g, ["process_path", "file_path"]))
        || Same(t.localName(f), ReadFirst(g, ["process_name", "file_name"])))
  }

  /** A transfer job and an execution, within a day, of the file that it wrote. */
  function TransferExecuted(t: Bits.Texts): Finding {
    Finding("bits_download_then_execute", IsTransfer,
            Some(Partner({"program_execution", "execution_candidate"},
                         (f: Facts, g: Facts) => RunsJobFile(t, f, g), None,
                    Some(Dated(false, false)))))
  }

  lemma JobShape(t: Bits.Texts)
    ensures var p := Bits.JobPass(t);
      && p.finder == Scan && |p.slots| == 6 && p.selects == Bits.IsJob
      && p.slots[0].derive == [] && p.slots[1].derive == [] && p.slots[2].derive == []
      && SlotIs(p.slots[3], {"defender_detection"}, Bits.JobDetection, [Bits.DetectedJob()])
      && p.slots[4] == Bits.ExecutionSlot((f: Facts, y: Snap) => Bits.JobExecution(t, f, y.facts), 4)
      && p.slots[5].derive == [Bits.ExecutedJob(5)]
  {
    hide Bits.JobShell, Bits.JobDownload, Bits.JobCreation, Bits.JobDetection, Bits.JobExecution, Bits.JobMention,
      Bits.ExecutedJob, Bits.DetectedJob;
  }

  lemma JobNames(t: Bits.Texts)
    ensures AllNamed(Bits.JobPass(t).slots) && KeepsOwner(Bits.DetectedJob()) && KeepsOwner(Bits.ExecutedJob(4))
    ensures MakesOf(Bits.DetectedJob(), 3, Dated(true, false)) && MakesOf(Bits.ExecutedJob(4), 4, Dated(false, false))
  {
    hide Bits.JobSlots;
    Bits.JobRecipes(t);
  }

  lemma JobPartners(t: Bits.Texts, f: Facts, g: Facts)
    ensures Bits.JobDetection(f, g) <==> NotElsewhere(f, g) && Same(JobFile(f), Read(g, "path"))
    ensures Bits.JobExecution(t, f, g) <==> RunsJobFile(t, f, g)
  {
    hide Normalized, Field, FirstField, HostText;
    SameDay(f, g);
  }

  lemma SameDay(f: Facts, g: Facts)
    ensures TimesAgree(f, g, 86400) <==> !f.stamp.GoodStamp? || !g.stamp.GoodStamp? || Apart(f, g, 86400)
  {}

  lemma TransferDetectedReported(t: Bits.Texts)
    ensures Reports(Bits.JobPass(t), TransferDetected(), 3, Bits.DetectedJob())
  {
    hide Bits.JobPass, AllNamed, KeepsOwner, MakesOf, Bits.JobDetection, Normalized, Field, FirstField;
    JobShape(t);
    JobNames(t);
    var d := TransferDetected();
    forall f: Facts, g: Facts ensures Bits.JobDetection(f, g) <==> d.partner.value.when(f, g) { JobPartners(t, f, g); }
    assert OnlyIn([Bits.DetectedJob()], Bits.DetectedJob());
    assert |"bits_download_detected_by_defender"| == 34 && |"bits_download_then_execute"| == 26;
  }

  lemma TransferExecutedDerived(t: Bits.Texts)
    ensures Derives(Bits.JobPass(t), TransferExecuted(t), 4, Bits.ExecutedJob(4))
  {
    hide Bits.JobPass, AllNamed, KeepsOwner, MakesOf, Bits.JobExecution, Normalized, Field, FirstField;
    JobShape(t);
    JobNames(t);
    var d := TransferExecuted(t);
    forall f: Facts, g: Facts ensures Bits.JobExecution(t, f, g) <==> d.partner.value.when(f, g) {
      JobPartners(t, f, g);
    }
  }

  lemma TransfersUnplaced(t: Bits.Texts)
    ensures Unplaced(TransferDetected()) && Place(TransferDetected().kind) == 10
    ensures Unplaced(TransferExecuted(t)) && Place(TransferExecuted(t).kind) == 10
  {
    hide Place, Read, ReadFirst;
    Kinds.JobKinds();
    RecordedHaveNoPlace();
  }
}
