/** The other append-only passes of the analysis, written out as tables. Three functions of the
    facts stand for path handling: `paths` gives the normalised entries of a command's path list,
    `parentOf` the normalised Windows parent of a file path, `folderOf` the folder of a jump-list
    target; `lacksContent` tells a recycled file whose content file is missing. */
module WindowsPasses {
  import opened Text
  import opened Activities
  import opened Greedy
  import opened TablePasses
  import opened StandardPasses
  import opened Usb

  const TASKS := {"scheduled_task_definition", "scheduled_task_com_handler", "scheduled_task"}
  const POWERSHELL_KINDS := {"powershell_execution", "powershell_download", "powershell_encoded_execution",
                             "powershell_defender_tampering", "powershell_persistence", "powershell_recon",
                             "powershell_credential_access"}

  const DOWNLOADS := {"file_download"}
  const PROGRAMS := {"program_execution"}
  const OBSERVED := {"program_inventory", "execution_candidate"}
  const USAGES := {"application_network_usage"}
  const WRITTEN := {"file_created", "file_modified"}
  const RECYCLED := {"file_recycled"}
  const FOLDERS := {"folder_accessed"}

  function OfKind(kinds: set<string>): Facts -> bool {
    (f: Facts) => f.kind in kinds
  }

  predicate Near(f: Facts, g: Facts, window: int) {
    HostsAgree(f, g) && TimesAgree(f, g, window)
  }

  /** Unlike `HostsAgree`, an item without a host matches only candidates without one. */
  predicate HostWithin(f: Facts, g: Facts) {
    Normalized(HostText(g)) == "" || Normalized(HostText(g)) == Normalized(HostText(f))
  }

  predicate OneOf(texts: seq<string>, t: string) {
    t != "" && t in texts
  }

  function FirstClean(f: Facts, names: seq<string>): string {
    Normalized(FirstField(f, names))
  }

  function JoinFilled(a: string, b: string): string {
    if a == "" then b else if b == "" then a else a + " " + b
  }

  function NameOf(path: string): string {
    Normalized(BaseName(path))
  }

  /** A process is found by its path, by its path in the command line, or by name. */
  predicate ProcessMatch(path: string, name: string, g: Facts) {
    || (path != "" && (path == Clean(g, "process_path") || Contains(Clean(g, "command_line"), path)))
    || SameText(name, Clean(g, "process_name"))
  }

  // ---- derived activities ----------------------------------------------------------

  /** Time and key fields of an activity derived from an item and the match of one slot. */
  function DerivedFacts(slot: nat, itemTimeFirst: bool, domain: bool): (Facts, seq<Option<Facts>>) -> Facts {
    (f: Facts, heads: seq<Option<Facts>>) =>
      if slot < |heads| && heads[slot].Some? then
        var g := heads[slot].value;
        f.(stamp := if itemTimeFirst then StampOr(f.stamp, g.stamp) else StampOr(g.stamp, f.stamp),
           fields := if domain then f.fields["download_domain" := Field(g, "domain")] else f.fields)
      else f
  }

  function Follow(kind: string, slot: nat, link: string, itemTimeFirst: bool, domain: bool, tags: seq<string>,
                  confidence: real): Recipe {
    Recipe(kind, (f: Facts) => true, [slot], DerivedFacts(slot, itemTimeFirst, domain), [slot], [slot], [(link, slot)],
           false, tags, [],
           (c: real, heads: seq<Option<Facts>>) => confidence)
  }

  /** One confidence if the other slot has a match, another if not. */
  function Either(slot: nat, with': real, without: real): (real, seq<Option<Facts>>) -> real {
    (c: real, heads: seq<Option<Facts>>) => if slot < |heads| && heads[slot].Some? then with' else without
  }

  // ---- correlate_powershell_usage ---------------------------------------------------

  predicate ShellDownload(paths: Facts -> seq<string>, f: Facts, g: Facts) {
    && Near(f, g, 7200)
    && (SameText(Clean(f, "url"), Clean(g, "url")) || SameText(Clean(f, "domain"), Clean(g, "domain"))
        || OneOf(paths(f), Clean(g, "file_path")))
  }

  predicate ShellExecution(f: Facts, g: Facts) {
    var name, command, other := Clean(g, "process_name"), Clean(f, "command_line"), Clean(g, "command_line");
    && Near(f, g, 7200)
    && (Contains(name, "powershell") || Contains(name, "pwsh"))
    && (command == "" || Contains(other, command) || Contains(command, other))
  }

  predicate ShellTask(paths: Facts -> seq<string>, f: Facts, g: Facts) {
    var command, blob := Clean(f, "command_line"), Normalized(JoinFilled(Field(g, "command"), Field(g, "arguments")));
    HostsAgree(f, g) && command != "" && blob != "" && exists t :: t in [command] + paths(f) && Contains(blob, t)
  }

  predicate ShellNetwork(f: Facts, g: Facts) {
    Near(f, g, 7200) && Clean(g, "process_name") in {"powershell.exe", "pwsh.exe"}
  }

  predicate ShellDetection(paths: Facts -> seq<string>, f: Facts, g: Facts) {
    HostsAgree(f, g) && OneOf(paths(f), Clean(g, "path"))
  }

  predicate ShellFile(paths: Facts -> seq<string>, f: Facts, g: Facts) {
    HostsAgree(f, g) && OneOf(paths(f), Clean(g, "file_path"))
  }

  /** A test that also reads the item's path list. */
  function WithPaths(paths: Facts -> seq<string>, test: (Facts -> seq<string>, Facts, Facts) -> bool): (Facts,
      Facts) -> bool {
    (f: Facts, g: Facts) => test(paths, f, g)
  }

  function ShellFetch(): Recipe {
    Follow("downloaded_and_executed_via_powershell", 0, "download_event", true, true, ["download", "powershell"], 0.84)
    .(when := OfKind({"powershell_download"}))
  }

  function PowershellPass(paths: Facts -> seq<string>): Pass {
    Pass(OfKind(POWERSHELL_KINDS),
         [PlainSlot(OfKind(DOWNLOADS), WithPaths(paths, ShellDownload), First, ["browser_download_correlated"], [],
                    0.82,
                    [ShellFetch()]),
          PlainSlot(OfKind(PROGRAMS), ShellExecution, First, ["execution_correlated"], [], 0.92, []),
          PlainSlot(OfKind(DETECTIONS), WithPaths(paths, ShellDetection), First, ["defender_correlated"], [], 0.9, []),
          PlainSlot(OfKind(TASKS), WithPaths(paths, ShellTask), First, ["scheduled_task_correlated"], [], 0.86, []),
          PlainSlot(OfKind(USAGES), ShellNetwork, First, ["srum_correlated"], [], 0.8, []),
          PlainSlot(OfKind(WRITTEN), WithPaths(paths, ShellFile), First, ["filesystem_correlated"], [], 0.78, [])],
         Scan, NoReason)
  }

  // ---- correlate_srum_usage -----------------------------------------------------------

  function UsageName(f: Facts): string {
    FirstClean(f, ["process_name", "application"])
  }

  predicate UsageExecution(f: Facts, g: Facts) {
    Near(f, g, 7200) && ProcessMatch(Clean(f, "process_path"), UsageName(f), g)
  }

  predicate UsageFile(f: Facts, g: Facts) {
    && HostsAgree(f, g)
    && (SameText(Clean(f, "process_path"), Clean(g, "file_path")) || SameText(UsageName(f), Clean(g, "file_name")))
  }

  predicate UsageDownload(f: Facts, g: Facts) {
    TimesAgree(f, g, 7200) && UsageFile(f, g)
  }

  function NetworkActive(): Recipe {
    Follow("downloaded_and_network_active_program", 2, "download_event", true, true, ["network", "download"], 0.75)
    .(uses := [2, 0], reasonsFrom := [2, 0], links := [("download_event", 2), ("execution_event", 0)],
      confidence := Either(0, 0.84, 0.75))
  }

  predicate IsUsage(f: Facts) {
    f.kind in USAGES && (UsageName(f) != "" || Clean(f, "process_path") != "")
  }

  function SrumPass(): Pass {
    Pass(IsUsage,
         [PlainSlot(OfKind(EXECUTION_KINDS), UsageExecution, First, ["execution_correlated"], [], 0.88, []),
          PlainSlot(OfKind(OBSERVED), UsageFile, First, ["execution_artifact_correlated"], [], 0.76, []),
          PlainSlot(OfKind(DOWNLOADS), UsageDownload, First,
                    ["browser_download_correlated", "downloaded_and_network_active"], [], 0.74, [NetworkActive()])],
         Scan, NoReason)
  }

  // ---- correlate_scheduled_tasks --------------------------------------------------------

  /** The last component of the command, lower-cased but not trimmed. */
  function CommandName(f: Facts): string {
    Lower(BaseName(Clean(f, "command")))
  }

  predicate TaskExecution(f: Facts, g: Facts) {
    var command := Clean(f, "command");
    && Near(f, g, 7200)
    && ((command != "" && (command == Clean(g, "process_path") || Contains(Clean(g, "command_line"), command)))
        || SameText(CommandName(f), Clean(g, "process_name")))
  }

  predicate TaskObserved(f: Facts, g: Facts) {
    HostsAgree(f, g) && (SameText(Clean(f, "command"), Clean(g, "file_path"))
                         || SameText(CommandName(f), Clean(g, "file_name")))
  }

  predicate TaskDownload(f: Facts, g: Facts) {
    var run, path := JoinFilled(Clean(f, "command"), Clean(f, "arguments")), Clean(g, "file_path");
    && Near(f, g, 86400)
    && (SameText(Clean(f, "command"), path) || (run != "" && path != "" && Contains(run, path))
        || SameText(CommandName(f), Clean(g, "file_name")))
  }

  /** The execution's time, else the task event's, else the item's. */
  function TaskRunFacts(f: Facts, heads: seq<Option<Facts>>): Facts {
    if |heads| > 2 && heads[2].Some? then
      var otherwise := if heads[0].Some? then StampOr(heads[0].value.stamp, f.stamp) else f.stamp;
      f.(stamp := StampOr(heads[2].value.stamp, otherwise))
    else f
  }

  predicate TaskEvent(f: Facts, g: Facts) {
    Near(f, g, 7200) && SameText(Clean(f, "task_name"), Clean(g, "task_name"))
  }

  const TASK_EVENTS := {"scheduled_task_created", "scheduled_task_updated", "scheduled_task_action_started",
                        "scheduled_task_action_completed"}

  function TaskRun(): Recipe {
    Follow("task_execution", 2, "executed_event", false, false, ["persistence", "execution_related"], 0.95)
    .(facts := TaskRunFacts)
  }

  function TaskPersisted(): Recipe {
    Follow("downloaded_and_persisted", 3, "download_event", false, true, ["download", "persistence"], 0.78)
    .(confidence := Either(2, 0.84, 0.78))
  }

  function TasksPass(): Pass {
    Pass(OfKind(TASKS),
         [PlainSlot(OfKind(TASK_EVENTS), TaskEvent, First, ["task_event_correlated"], [], 0.9, []),
          PlainSlot(OfKind(OBSERVED), TaskObserved, First, ["execution_artifact_correlated"], [], 0.76, []),
          PlainSlot(OfKind(EXECUTION_KINDS), TaskExecution, First, ["task_execution_correlated"], [], 0.95,
                    [TaskRun()]),
          PlainSlot(OfKind(DOWNLOADS), TaskDownload, First, ["browser_download_correlated"], [], 0.82,
                    [TaskPersisted()])],
         Scan, NoReason)
  }

  // ---- correlate_recycle_bin ---------------------------------------------------------------

  function DownloadName(g: Facts): string {
    if Field(g, "file_name") != "" then Clean(g, "file_name") else NameOf(Field(g, "file_path"))
  }

  predicate RecycledDownload(f: Facts, g: Facts) {
    Near(f, g, 604800) && (SameText(Clean(f, "file_path"), Clean(g, "file_path"))
                           || SameText(Clean(f, "file_name"), DownloadName(g)))
  }

  predicate RecycledDetection(f: Facts, g: Facts) {
    HostsAgree(f, g) && (SameText(Clean(f, "file_path"), Clean(g, "path"))
                         || SameText(Clean(f, "file_name"), NameOf(Clean(g, "path"))))
  }

  predicate RecycledExecution(f: Facts, g: Facts) {
    var path := Clean(f, "file_path");
    && Near(f, g, 604800)
    && ((path != "" && (path == FirstClean(g, ["process_path", "file_path"])
                        || Contains(Clean(g, "command_line"), path)))
        || SameText(Clean(f, "file_name"), FirstClean(g, ["process_name", "file_name"])))
  }

  predicate RecycledPersistence(f: Facts, g: Facts) {
    var path, name, command := Clean(f, "file_path"), Clean(f, "file_name"),
      FirstClean(g, ["command", "path", "command_line"]);
    && HostsAgree(f, g)
    && ((path != "" && Contains(command, path)) || (name != "" && Contains(command, name))
        || SameText(name, FirstClean(g, ["task_name", "service_name"])))
  }

  predicate RecycledFile(f: Facts, g: Facts) {
    Near(f, g, 604800) && SamePathOrName(f, g)
  }

  const RUNNABLE := EXECUTION_KINDS + OBSERVED
  const FILE_EVENTS := WRITTEN + {"file_deleted", "file_renamed"}
  const PERSISTENT := TASKS + {"scheduled_task_created", "scheduled_task_updated", "persistence", "service_modified",
                               "service_created"}
  const CONTENT_MISSING := "Recycle Bin metadata exists but recycled content file is missing"

  function DeletedDownload(): Recipe {
    Follow("deleted_download", 0, "download_event", true, false, ["recycle_bin", "download"], 0.84)
    .(uses := [0, 3], confidence := Either(3, 0.9, 0.84))
  }

  function DeletedDetected(): Recipe {
    Follow("deleted_detected_file", 1, "defender_event", true, false, ["recycle_bin", "defender_correlated"], 0.94)
  }

  function DeletedPersistent(): Recipe {
    Follow("deleted_persistent_file", 4, "persistence_event", true, false, ["recycle_bin", "persistence"], 0.88)
  }

  predicate IsRecycled(f: Facts) {
    f.kind in RECYCLED && (Clean(f, "file_path") != "" || Clean(f, "file_name") != "")
  }

  function RecyclePass(lacksContent: Facts -> bool): Pass {
    Pass(IsRecycled,
         [PlainSlot(OfKind(DOWNLOADS), RecycledDownload, First, ["browser_download_correlated", "deleted_download"], [],
                    0.9, [DeletedDownload()]),
          PlainSlot(OfKind(DETECTIONS), RecycledDetection, First, ["defender_correlated", "deleted_detected_file"], [],
                    0.94, [DeletedDetected()]),
          PlainSlot(OfKind(RUNNABLE), RecycledExecution, First, ["execution_correlated"], [], 0.9, []),
          PlainSlot(OfKind(FILE_EVENTS), RecycledFile, First, ["filesystem_correlated"], [], 0.0, [])
            .(floor := (f: Facts, g: Facts) => if g.kind == "file_deleted" then 0.96 else 0.86),
          PlainSlot(OfKind(PERSISTENT), RecycledPersistence, First, ["persistence_correlated"], [], 0.88,
                    [DeletedPersistent()])],
         Scan, (f: Facts) => if lacksContent(f) then Some(CONTENT_MISSING) else None)
  }

  // ---- correlate_shellbags --------------------------------------------------------------------

  predicate InFolder(parentOf: Facts -> string, f: Facts, g: Facts) {
    HostWithin(f, g) && parentOf(g) == Clean(f, "file_path")
  }

  predicate UnderFolder(parentOf: Facts -> string, f: Facts, g: Facts) {
    HostWithin(f, g) && (Clean(f, "file_path") + "\\" <= Clean(g, "file_path") || parentOf(g) == Clean(f, "file_path"))
  }

  /** A test that also reads the parent folder of the candidate. */
  function WithParents(parentOf: Facts -> string, test: (Facts -> string, Facts, Facts) -> bool): (Facts,
      Facts) -> bool {
    (f: Facts, g: Facts) => test(parentOf, f, g)
  }

  function FolderRelated(): Recipe {
    Follow("folder_related_to_deleted_download", 2, "", true, false, ["shellbags", "download"], 0.84).(links := [])
  }

  predicate IsFolder(f: Facts) {
    f.kind in FOLDERS && Clean(f, "file_path") != ""
  }

  function ShellbagsPass(parentOf: Facts -> string): Pass {
    Pass(IsFolder,
         [PlainSlot(OfKind(FILE_ACCESS_KINDS), WithParents(parentOf, UnderFolder), First, ["lnk_correlated"], [], 0.88,
                    []),
          PlainSlot(OfKind(RECYCLED), WithParents(parentOf, InFolder), First, ["recycle_bin_correlated"], [], 0.86, []),
          PlainSlot(OfKind(DOWNLOADS), WithParents(parentOf, InFolder), First, ["browser_download_correlated"], [],
                    0.86,
                    [FolderRelated()])],
         Scan, NoReason)
  }

  // ---- correlate_jumplists -----------------------------------------------------------------------

  predicate SameTarget(f: Facts, g: Facts) {
    && HostWithin(f, g)
    && (Clean(g, "file_path") == Clean(f, "file_path")
        || SameText(Clean(g, "file_name"), NameOf(Clean(f, "file_path"))))
  }

  predicate SameShortcut(f: Facts, g: Facts) {
    && HostWithin(f, g)
    && (Clean(g, "file_path") == Clean(f, "file_path")
        || NameOf(Field(g, "file_path")) == NameOf(Clean(f, "file_path")))
  }

  predicate SameFolder(folderOf: Facts -> string, f: Facts, g: Facts) {
    HostWithin(f, g) && SameText(folderOf(f), Clean(g, "file_path"))
  }

  predicate TargetDownload(f: Facts, g: Facts) {
    SameTarget(f, g) && TimesAgree(f, g, 604800)
  }

  /** A shortcut file, as other tools read it. */
  predicate IsShortcut(f: Facts) {
    f.kind in FILE_ACCESS_KINDS && SourceText(f) in {"lecmd", "native_lnk"}
  }

  const JUMP_KINDS := FILE_ACCESS_KINDS + {"recent_file_opened"}

  predicate IsJump(f: Facts) {
    f.kind in JUMP_KINDS && SourceText(f) == "jlecmd" && Clean(f, "file_path") != ""
  }

  function DeletedOpened(): Recipe {
    Follow("deleted_file_was_opened", 2, "recycle_event", true, false, ["recycle_bin"], 0.9)
  }

  function DownloadOpened(): Recipe {
    Follow("downloaded_file_opened", 3, "download_event", true, true, ["download"], 0.9)
  }

  function JumplistsPass(folderOf: Facts -> string): Pass {
    Pass(IsJump,
         [PlainSlot(IsShortcut, SameShortcut, First, ["lnk_correlated"], [], 0.9, []),
          PlainSlot(OfKind(FOLDERS), WithParents(folderOf, SameFolder), First, ["shellbag_correlated"], [], 0.88, []),
          PlainSlot(OfKind(RECYCLED), SameTarget, First, ["recycle_bin_correlated"], [], 0.9, [DeletedOpened()]),
          PlainSlot(OfKind(DOWNLOADS), TargetDownload, First, ["browser_download_correlated"], [], 0.9,
                    [DownloadOpened()])],
         Scan, NoReason)
  }

  // ---- correlate_defender_findings ----------------------------------------------------------------

  function ThreatName(f: Facts): string {
    NameOf(Clean(f, "path"))
  }

  predicate ThreatDownload(f: Facts, g: Facts) {
    Near(f, g, 86400) && (SameText(Clean(f, "path"), Clean(g, "file_path"))
                          || SameText(ThreatName(f), Clean(g, "file_name")))
  }

  predicate ThreatPersistence(f: Facts, g: Facts) {
    var run := FirstClean(g, ["command", "path", "image_path", "service_dll"]);
    && HostsAgree(f, g) && run != ""
    && ((Clean(f, "path") != "" && Contains(run, Clean(f, "path")))
        || (ThreatName(f) != "" && Contains(run, ThreatName(f))))
  }

  predicate ThreatNetwork(f: Facts, g: Facts) {
    && HostsAgree(f, g)
    && (SameText(Clean(f, "path"), Clean(g, "process_path"))
        || SameText(ThreatName(f), FirstClean(g, ["process_name", "application"])))
  }

  predicate Says(f: Facts, word: string) {
    Contains(Clean(f, "action"), word) || Contains(Clean(f, "status"), word)
  }

  /** An activity that repeats the item under another kind. */
  function Verdict(kind: string, when: Facts -> bool, tag: string, reasons: seq<string>, floor: real): Recipe {
    Recipe(kind, when, [], SameFacts, [], [], [], false, [tag], reasons,
           (c: real, heads: seq<Option<Facts>>) => MaxReal(c, floor))
  }

  predicate SaysRemediated(f: Facts) {
    Says(f, "removed") || Says(f, "cleaned") || Says(f, "remediated")
  }

  function Quarantined(): Recipe {
    Verdict("defender_quarantined_file", (f: Facts) => Says(f, "quarantine"), "quarantined", ["Threat was quarantined"],
            0.9)
  }

  function Unremediated(): Recipe {
    Verdict("defender_remediation_failed", (f: Facts) => Says(f, "failed"), "remediation_failed",
            ["Threat remediation failed"], 0.92)
  }

  function Remediated(): Recipe {
    Verdict("defender_remediated_threat", SaysRemediated, "remediated", [], 0.88)
  }

  predicate ThreatExecution(f: Facts, g: Facts) {
    Near(f, g, 86400) && ProcessMatch(Clean(f, "path"), ThreatName(f), g)
  }

  predicate Severe(f: Facts) {
    Clean(f, "severity") in {"high", "severe", "critical"}
  }

  predicate SevereNetwork(f: Facts, g: Facts) {
    ThreatNetwork(f, g) && Severe(f)
  }

  const THREAT_PERSISTENCE := TASKS + {"persistence", "service_modified"}

  function ThreatFetched(): Recipe {
    Follow("detected_downloaded_file", 0, "download_event", true, true, ["defender_correlated", "download"], 0.9)
  }

  function ThreatRun(): Recipe {
    Follow("detected_executed_file", 1, "executed_event", true, false, ["execution_related", "defender_correlated"],
           0.96)
  }

  function ThreatKept(): Recipe {
    Follow("detected_persistent_file", 2, "persistence_event", true, false, ["persistence", "defender_correlated"],
           0.94)
  }

  /** The last slot finds what the one before it found and only adds a tag to a severe item. */
  function DefenderPass(): Pass {
    Pass(OfKind(DETECTIONS),
         [PlainSlot(OfKind(DOWNLOADS), ThreatDownload, First, ["browser_download_correlated"], [], 0.9,
                    [ThreatFetched()]),
          PlainSlot(OfKind(EXECUTION_KINDS), ThreatExecution, First, ["execution_correlated"], [], 0.96, [ThreatRun()]),
          PlainSlot(OfKind(THREAT_PERSISTENCE), ThreatPersistence, First, ["persistence_correlated"], [], 0.94,
                    [ThreatKept()]),
          PlainSlot(OfKind(USAGES), ThreatNetwork, First, ["network_correlated"], [], 0.84,
                    [Quarantined(), Unremediated(), Remediated()]),
          PlainSlot(OfKind(USAGES), SevereNetwork, First, ["defender_with_network_activity"], [], 0.84, [])],
         Scan, NoReason)
  }
}
