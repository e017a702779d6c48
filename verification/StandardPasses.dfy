/** Three append-only passes written out as tables: shortcut files, browser downloads and observed
    programs. */
module StandardPasses {
  import opened Text
  import opened Activities
  import opened Greedy
  import opened TablePasses
  import opened Usb

  // ---- shared conditions ----------------------------------------------------------

  const DETECTIONS := {"defender_detection", "defender_action"}

  /** Known times must lie in the window; a missing one matches anything. */
  predicate TimesAgree(f: Facts, g: Facts, window: int) {
    f.stamp.GoodStamp? && g.stamp.GoodStamp? ==> Within(g.stamp, f.stamp, window)
  }

  function Clean(f: Facts, name: string): string {
    Normalized(Field(f, name))
  }

  predicate SameText(a: string, b: string) {
    a != "" && b != "" && a == b
  }

  predicate SamePathOrName(f: Facts, g: Facts) {
    SameText(Clean(f, "file_path"), Clean(g, "file_path")) || SameText(Clean(f, "file_name"), Clean(g, "file_name"))
  }

  function KeepNotes(notes: map<string, string>, y: Snap): map<string, string> {
    notes
  }

  function NoteOf(y: Snap, name: string): string {
    if name in y.body.notes then y.body.notes[name] else ""
  }

  // ---- correlate_lnk_with_execution -----------------------------------------------

  function BaseName(path: string): string {
    if path == "" then ""
    else if path[|path| - 1] == '/' then BaseName(path[..|path| - 1])
    else LastPart(path)
  }

  function LastPart(path: string): string {
    if path == "" || path[|path| - 1] == '/' then "" else LastPart(path[..|path| - 1]) + [path[|path| - 1]]
  }

  predicate LnkPathMatch(execution: Facts, lnk: Facts) {
    var path := Clean(lnk, "file_path");
    path != "" && (path == Clean(execution, "process_path") || Contains(Clean(execution, "command_line"), path))
  }

  predicate LnkMatches(execution: Facts, lnk: Facts, window: int) {
    && execution.stamp.GoodStamp? && lnk.stamp.GoodStamp? && Within(execution.stamp, lnk.stamp, window)
    && HostsAgree(execution, lnk)
    && (LnkPathMatch(execution, lnk) || SameText(Normalized(BaseName(Clean(lnk, "file_path"))),
                                                 Clean(execution, "process_name")))
  }

  function LnkNotes(notes: map<string, string>, y: Snap): map<string, string> {
    notes["lnk_source" := NoteOf(y, "source_lnk")]["source_jumplist" := NoteOf(y, "source_jumplist")]
         ["lnk_target_path" := Field(y.facts, "file_path")]["file_access_target_path" := Field(y.facts, "file_path")]
  }

  function LnkPass(): Pass {
    Pass((f: Facts) => f.kind in EXECUTION_KINDS,
         [Slot((f: Facts) => f.kind in FILE_ACCESS_KINDS, (f: Facts, y: Snap) => LnkMatches(f, y.facts, 1800), All,
               ["lnk_correlated"], true, [],
               (f: Facts, g: Facts) => if LnkPathMatch(f, g) then 0.95 else 0.88, LnkNotes, None, None, [])],
         Scan, NoReason)
  }

  // ---- correlate_browser_downloads --------------------------------------------------

  const BROWSER_WINDOW := 1800

  predicate AccessMatches(download: Facts, g: Facts) {
    HostsAgree(download, g) && TimesAgree(download, g, BROWSER_WINDOW)
      && SameText(Clean(download, "file_path"), Clean(g, "file_path"))
  }

  predicate CreationMatches(download: Facts, g: Facts) {
    HostsAgree(download, g) && TimesAgree(download, g, BROWSER_WINDOW) && SamePathOrName(download, g)
  }

  predicate ExecutionMatches(download: Facts, g: Facts) {
    var path, name := Clean(download, "file_path"), Clean(download, "file_name");
    && HostsAgree(download, g) && TimesAgree(download, g, BROWSER_WINDOW)
    && ((path != "" && (path == Clean(g, "process_path") || Contains(Clean(g, "command_line"), path)))
        || (name != "" && name == Clean(g, "process_name")))
  }

  predicate IsDownload(f: Facts) {
    f.kind == "file_download" && (Clean(f, "file_path") != "" || Clean(f, "file_name") != "")
  }

  function SameFacts(f: Facts, heads: seq<Option<Facts>>): Facts {
    f
  }

  function DownloadConfidence(c: real, heads: seq<Option<Facts>>): real {
    if |heads| > 2 && heads[2].Some? then 0.96 else 0.92
  }

  function ExecutedRecipe(): Recipe {
    Recipe("downloaded_and_executed", (f: Facts) => true, [3], SameFacts, [3, 2], [3],
           [("executed_event", 3), ("created_file_event", 2)], false, ["download", "execution_related"], [],
           DownloadConfidence)
  }

  /** A test that reads only the facts of the candidate. */
  function OnFacts(matches: (Facts, Facts) -> bool): (Facts, Snap) -> bool {
    (f: Facts, y: Snap) => matches(f, y.facts)
  }

  function PlainSlot(from: Facts -> bool, matches: (Facts, Facts) -> bool, mode: Mode, tags: seq<string>,
                     reasons: seq<string>,
                     floor: real, derive: seq<Recipe>): Slot {
    Slot(from, OnFacts(matches), mode, tags, false, reasons, (f: Facts, g: Facts) => floor, KeepNotes, None, None,
         derive)
  }

  function BrowserSlots(): seq<Slot> {
    [PlainSlot((f: Facts) => f.kind in FILE_ACCESS_KINDS, AccessMatches, All, ["browser_download_opened"], [], 0.86,
               []),
     PlainSlot((f: Facts) => f.kind in DETECTIONS,
               (f: Facts, g: Facts) => SameText(Clean(f, "file_path"), Clean(g, "path")), All,
               ["defender_correlated"], ["Downloaded file matched Defender detection"], 0.95, []),
     PlainSlot((f: Facts) => f.kind == "file_created", CreationMatches, First, ["mft_correlated"], [], 0.88, []),
     PlainSlot((f: Facts) => f.kind in EXECUTION_KINDS || f.kind == "execution_candidate", ExecutionMatches, First,
               ["executed_after_download"], [], 0.96, [ExecutedRecipe()])]
  }

  function BrowserPass(): Pass {
    Pass(IsDownload, BrowserSlots(), Scan, NoReason)
  }

  // ---- correlate_execution_artifacts ---------------------------------------------------

  predicate ArtifactDownload(item: Facts, g: Facts) {
    HostsAgree(item, g) && TimesAgree(item, g, 86400) && SamePathOrName(item, g)
  }

  predicate ArtifactFile(item: Facts, g: Facts) {
    HostsAgree(item, g) && SamePathOrName(item, g)
  }

  predicate ArtifactExecution(item: Facts, g: Facts) {
    var path := Clean(item, "file_path");
    && HostsAgree(item, g)
    && ((path != "" && (path == Clean(g, "process_path") || Contains(Clean(g, "command_line"), path)))
        || SameText(Clean(item, "file_name"), Clean(g, "process_name")))
  }

  predicate ArtifactDetection(item: Facts, g: Facts) {
    HostsAgree(item, g) && SameText(Clean(item, "file_path"), Clean(g, "path"))
  }

  function ObservedFacts(f: Facts, heads: seq<Option<Facts>>): Facts {
    if |heads| > 0 && heads[0].Some? then
      f.(stamp := StampOr(heads[0].value.stamp, f.stamp),
         fields := f.fields["download_domain" := Field(heads[0].value, "domain")])
    else f
  }

  function ObservedConfidence(c: real, heads: seq<Option<Facts>>): real {
    if |heads| > 1 && heads[1].Some? then 0.82 else 0.74
  }

  function SourceNote(notes: map<string, string>, y: Snap): map<string, string> {
    notes["execution_source" := Field(y.facts, "source")]
  }

  function ArtifactsPass(): Pass {
    Pass((f: Facts) => f.kind == "program_inventory" || f.kind == "execution_candidate",
         [PlainSlot((f: Facts) => f.kind == "file_download", ArtifactDownload, First, ["browser_download_correlated"],
                    [], 0.7,
                    [Recipe("downloaded_and_observed_program", (f: Facts) => true, [0], ObservedFacts, [0, 1], [0],
                            [("download_event", 0)], false,
                            ["download", "execution_artifact"], [], ObservedConfidence)]),
          PlainSlot((f: Facts) => f.kind == "file_created" || f.kind == "file_modified", ArtifactFile, First,
                    ["filesystem_correlated"], [], 0.76, []),
          PlainSlot((f: Facts) => f.kind in EXECUTION_KINDS, ArtifactExecution, First, ["execution_correlated"], [],
                    0.93, [])
            .(link := Some("executed_event"), annotate := SourceNote),
          PlainSlot((f: Facts) => f.kind in DETECTIONS, ArtifactDetection, First, ["defender_correlated"], [], 0.95,
                    [])],
         Scan, NoReason)
  }

  // ---- they are table passes --------------------------------------------------------------

  lemma LnkPlain()
    ensures Plain(LnkPass())
  {
    hide LnkMatches, LnkPathMatch;
    var p := LnkPass();
    assert |p.slots| == 1;
  }

  lemma LnkSeparate()
    ensures Separate(LnkPass()) && Plain(LnkPass())
  {
    hide Plain;
    LnkPlain();
    var p := LnkPass();
    assert |p.slots| == 1;
    PlainIsSeparate(p);
  }

  lemma BrowserPlain()
    ensures Plain(BrowserPass())
  {
    var p := BrowserPass();
    assert |p.slots| == 4;
  }

  lemma BrowserCandidates(f: Facts)
    requires f.kind == "file_download"
    ensures var s := BrowserSlots(); |s| == 4 && !s[0].from(f) && !s[1].from(f) && !s[2].from(f) && !s[3].from(f)
  {
    hide AccessMatches, CreationMatches, ExecutionMatches, ExecutedRecipe, SameText;
  }

  lemma BrowserSeparate()
    ensures Separate(BrowserPass()) && Plain(BrowserPass())
  {
    hide Plain, BrowserSlots;
    BrowserPlain();
    var p := BrowserPass();
    forall f: Facts, k | 0 <= k < |p.slots| && p.selects(f) ensures !p.slots[k].from(f) { BrowserCandidates(f); }
    PlainIsSeparate(p);
  }

  lemma ArtifactsPlain()
    ensures Plain(ArtifactsPass())
  {
    var p := ArtifactsPass();
    assert |p.slots| == 4;
  }

  lemma ArtifactsSeparate()
    ensures Separate(ArtifactsPass()) && Plain(ArtifactsPass())
  {
    hide Plain;
    ArtifactsPlain();
    var p := ArtifactsPass();
    assert |p.slots| == 4;
    PlainIsSeparate(p);
  }

  /** The browser pass does not compare hosts when it looks for detections. */
  lemma BrowserIgnoresHosts() returns (f: Facts, y: Snap)
    ensures |BrowserSlots()| == 4 && IsDownload(f) && BrowserSlots()[1].from(y.facts) && BrowserSlots()[1].matches(f, y)
    ensures !HostsAgree(f, y.facts)
  {
    hide BrowserSlots, IsDownload, Clean, HostsAgree;
    var b := Body([], [], [], [], 0.5, "", [], map[], map[]);
    f := Facts(0, "file_download", NoStamp, Some("p"), None, map["file_path" := "a"]);
    y := Snap(Facts(1, "defender_detection", NoStamp, Some("q"), None, map["path" := "a"]), b);
    TwoHosts(f, y.facts);
    DetectionSlot(f, y);
  }

  lemma TwoHosts(f: Facts, g: Facts)
    requires f == Facts(0, "file_download", NoStamp, Some("p"), None, map["file_path" := "a"])
    requires g == Facts(1, "defender_detection", NoStamp, Some("q"), None, map["path" := "a"])
    ensures !HostsAgree(f, g) && IsDownload(f) && Clean(f, "file_path") == "a" && Clean(g, "path") == "a"
  {
    hide Normalized;
    OneLetter('a');
    OneLetter('p');
    OneLetter('q');
  }

  lemma DetectionSlot(f: Facts, y: Snap)
    requires y.facts.kind in DETECTIONS
    ensures |BrowserSlots()| == 4 && BrowserSlots()[1].from(y.facts)
    ensures BrowserSlots()[1].matches(f, y) <==> SameText(Clean(f, "file_path"), Clean(y.facts, "path"))
  {
    hide SameText, Clean, AccessMatches, CreationMatches, ExecutionMatches, ExecutedRecipe;
  }

  // ---- what the browser pass derives -------------------------------------------------------

  lemma DerivesNothing(x: Snap, found: seq<seq<Snap>>, base: nat)
    ensures DerivedBy([], x, found, base) == []
  {}

  lemma OneRecipe(r: Recipe, x: Snap, found: seq<seq<Snap>>, base: nat)
    ensures DerivedBy([r], x, found, base) == if Applies(r, x.facts, found) then [Derived(r, x, found, base)] else []
  {
    hide Applies, Derived;
    assert [r][..0] == [];
    assert DerivedBy([r][..0], x, found, base) == [];
  }

  /** Slots without recipes derive nothing. */
  lemma {:induction false} QuietSlots(slots: seq<Slot>, k: nat, x: Snap, found: seq<seq<Snap>>, base: nat)
    requires k <= |slots| == |found| && forall n :: 0 <= n < k ==> slots[n].derive == []
    ensures AfterSlots(slots, k, x, found, base).derived == []
  {
    hide EnrichAll;
    if k > 0 {
      QuietSlots(slots, k - 1, x, found, base);
      DerivesNothing(AfterSlots(slots, k, x, found, base).item, found, base);
    }
  }

  lemma BrowserShape()
    ensures var s := BrowserSlots();
      && |s| == 4
      && s[0].derive == [] && s[1].derive == [] && s[2].derive == [] && s[3].derive == [ExecutedRecipe()]
  {
    hide ExecutedRecipe, AccessMatches, CreationMatches, ExecutionMatches;
  }

  lemma TwoLinks(links: map<string, nat>, a: (string, nat), b: (string, nat), found: seq<seq<Snap>>)
    requires a.0 != b.0 && a.1 < |found| && b.1 < |found|
    ensures var m := LinkTo(links, [a, b], found);
      && (found[a.1] != [] ==> a.0 in m && m[a.0] == found[a.1][0].facts.id)
      && (found[b.1] != [] ==> b.0 in m && m[b.0] == found[b.1][0].facts.id)
  {
    assert [a, b][1..] == [b] && [b][1..] == [];
    assert LinkTo(links, [], found) == links;
    assert LinkTo(links, [b], found) ==
      if found[b.1] != [] then links[b.0 := found[b.1][0].facts.id] else links - {b.0};
  }

  lemma ExecutedLinks(x: Snap, found: seq<seq<Snap>>, id: nat)
    requires |found| == 4
    ensures Applies(ExecutedRecipe(), x.facts, found) <==> found[3] != []
    ensures found[3] != [] ==>
      var d := Derived(ExecutedRecipe(), x, found, id);
      && d.facts == x.facts.(kind := "downloaded_and_executed", id := id)
      && "executed_event" in d.body.links && d.body.links["executed_event"] == found[3][0].facts.id
      && (found[2] != [] ==>
            "created_file_event" in d.body.links && d.body.links["created_file_event"] == found[2][0].facts.id)
      && d.body.confidence == if found[2] != [] then 0.96 else 0.92
  {
    hide LinkTo, Pool, MergeLists;
    var r := ExecutedRecipe();
    assert 3 in r.needs && forall k :: k in r.needs ==> k == 3;
    assert |"executed_event"| == 14 && |"created_file_event"| == 18;
    TwoLinks(x.body.links, ("executed_event", 3), ("created_file_event", 2), found);
  }

  /** A download yields one derived activity exactly when some execution matches it. The derived
      activity points at the first matching execution and at the first matching file creation,
      if there is one. */
  lemma BrowserDerives(L: seq<Snap>, i: nat, base: nat)
    requires i < |L| && IsDownload(L[i].facts)
    ensures var found := Matched(BrowserPass(), L[i].facts, L);
      var derived := ItemOutcome(BrowserPass(), L, i, base).derived;
      && |found| == 4
      && |derived| == (if found[3] != [] then 1 else 0)
      && (found[3] != [] ==>
          && derived[0].facts == L[i].facts.(kind := "downloaded_and_executed", id := base)
          && "executed_event" in derived[0].body.links
          && derived[0].body.links["executed_event"] == found[3][0].facts.id
          && (found[2] != [] ==>
              && "created_file_event" in derived[0].body.links
              && derived[0].body.links["created_file_event"] == found[2][0].facts.id))
  {
    hide EnrichAll, Matched, Applies, Derived, BrowserSlots, ExecutedRecipe, IsDownload;
    BrowserShape();
    var s, x := BrowserSlots(), L[i];
    var found := Matched(BrowserPass(), x.facts, L);
    QuietSlots(s, 3, x, found, base);
    ItemIgnoresIds(s, 4, x, found, base, base);
    ItemIgnoresIds(s, 3, x, found, base, base);
    var item := AfterSlots(s, 4, x, found, base).item;
    OneRecipe(ExecutedRecipe(), item, found, base);
    ExecutedLinks(item, found, base);
  }
}
