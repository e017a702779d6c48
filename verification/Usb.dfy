/** `correlate_usb_activity`: items are matched to devices through two dictionaries built in one
    walk over the device list. */
module Usb {
  import opened Text
  import opened Activities
  import opened TablePasses
  import opened CorrelatePass

  // ---- the lookup tables -----------------------------------------------------

  datatype Tables = Tables(drives: map<string, nat>, serials: map<string, nat>)

  function Put(m: map<string, nat>, key: string, at: nat): map<string, nat> {
    if key == "" then m else m[key := at]
  }

  function PutNew(m: map<string, nat>, key: string, at: nat): map<string, nat> {
    if key == "" || key in m then m else m[key := at]
  }

  /** The dictionaries after the first `n` entries, with list positions for values. */
  function TablesUpTo(L: seq<Snap>, n: nat): Tables
    requires n <= |L|
  {
    if n == 0 then Tables(map[], map[])
    else
      var t, f := TablesUpTo(L, n - 1), L[n - 1].facts;
      if !IsDevice(f) then t
      else
        Tables(Put(t.drives, Normalized(Field(f, "drive_letter")), n - 1),
               PutNew(Put(t.serials, Normalized(Field(f, "volume_serial")), n - 1), Normalized(Field(f, "serial")),
                      n - 1))
  }

  ghost function Looked(L: seq<Snap>, m: map<string, nat>, key: string): seq<Snap> {
    if key in m && m[key] < |L| then [L[m[key]]] else []
  }

  /** Looking a drive up gives the last device with it. */
  lemma {:induction false} DriveTableIsScan(L: seq<Snap>, n: nat, key: string)
    requires n <= |L|
    ensures Looked(L, TablesUpTo(L, n).drives, key) == DriveOwner(L, n, key)
    ensures key in TablesUpTo(L, n).drives ==> TablesUpTo(L, n).drives[key] < n && key != ""
  {
    hide IsDevice, Normalized, PutNew;
    if n > 0 { DriveTableIsScan(L, n - 1, key); }
  }

  /** Looking a serial up gives the last device with that volume serial or else the first with
      that device serial. */
  lemma {:induction false} SerialTableIsScan(L: seq<Snap>, n: nat, key: string)
    requires n <= |L|
    ensures Looked(L, TablesUpTo(L, n).serials, key) == SerialTable(L, n, key)
    ensures key in TablesUpTo(L, n).serials ==> TablesUpTo(L, n).serials[key] < n && key != ""
  {
    hide IsDevice, Normalized;
    if n > 0 {
      SerialTableIsScan(L, n - 1, key);
      var f := L[n - 1].facts;
      if IsDevice(f) && Normalized(Field(f, "volume_serial")) != key {
        assert VolumeOwner(L, n, key) == VolumeOwner(L, n - 1, key);
      }
    }
  }

  // ---- the pass ------------------------------------------------------------------

  const ACCESS_KINDS := {"opened_file", "recent_file_opened", "downloaded_file_opened", "usb_file_accessed",
                         "removable_media_access"}
  const SHELL_KINDS := {"powershell_execution", "powershell_download"}
  const FILE_LIKE_KINDS := ACCESS_KINDS + SHELL_KINDS +
    {"file_created", "file_modified", "file_deleted", "file_recycled", "usb_folder_accessed", "file_download"}

  function StampOr(s: Stamp, t: Stamp): Stamp {
    if StampText(s) != "" then s else t
  }

  function SpellingOf(drives: seq<string>, device: Facts): string {
    if drives == [] then ""
    else if Normalized(drives[0]) == Normalized(Field(device, "drive_letter")) then drives[0]
    else SpellingOf(drives[1..], device)
  }

  /** Timestamp and key fields of a derived activity. Where the drive is recorded it is the
      item's own spelling of the matched device's letter, or nothing for a match by serial. */
  function UsbFacts(slot: nat, drivesIn: Option<Facts -> seq<string>>): (Facts, seq<Option<Facts>>) -> Facts {
    (f: Facts, heads: seq<Option<Facts>>) =>
      if slot < |heads| && heads[slot].Some? then
        var device := heads[slot].value;
        var drive := if slot == 0 && drivesIn.Some? then SpellingOf(drivesIn.value(f), device) else "";
        f.(stamp := StampOr(f.stamp, device.stamp),
           fields := if drivesIn.Some? then f.fields["drive_letter" := drive] else f.fields)
      else f
  }

  function AccessRecipe(drivesIn: Facts -> seq<string>, slot: nat): Recipe {
    Recipe("usb_file_access", (f: Facts) => f.kind in ACCESS_KINDS, [slot], UsbFacts(slot, Some(drivesIn)),
           [slot], [slot], [("related_usb_device", slot)], false, ["usb_file_access"], [],
           (c: real, heads: seq<Option<Facts>>) => MaxReal(c, 0.84))
  }

  function DownloadRecipe(): Recipe {
    Recipe("usb_download_to_external_drive", (f: Facts) => f.kind == "file_download", [0], UsbFacts(0, None), [0], [],
           [("related_usb_device", 0)], false, ["download_to_usb", "possible_usb_exfiltration"],
           ["Browser download target is removable drive"],
           (c: real, heads: seq<Option<Facts>>) => 0.86)
  }

  function CopyRecipe(drivesIn: Facts -> seq<string>, copies: Facts -> bool): Recipe {
    Recipe("possible_usb_exfiltration_candidate", (f: Facts) => f.kind in SHELL_KINDS && copies(f), [0],
           UsbFacts(0, Some(drivesIn)), [0], [], [("related_usb_device", 0)], false,
           ["copy_to_usb", "possible_usb_exfiltration"],
           ["PowerShell/copy command references removable drive"],
           (c: real, heads: seq<Option<Facts>>) => 0.78)
  }

  function UsbSlot(derive: seq<Recipe>): Slot {
    Slot(IsDevice, (f: Facts, y: Snap) => true, First, ["usb_correlated"], false, [], (f: Facts, g: Facts) => 0.82,
         (notes: map<string, string>, y: Snap) => notes, None, None, derive)
  }

  /** `drivesIn` lists an item's candidate drives (from its paths, command line and drive field),
      `copies` says whether its command looks like a copy or archive. */
  function UsbPass(drivesIn: Facts -> seq<string>, copies: Facts -> bool): Pass {
    Pass((f: Facts) => f.kind in FILE_LIKE_KINDS,
         [UsbSlot([AccessRecipe(drivesIn, 0), DownloadRecipe(), CopyRecipe(drivesIn, copies)]),
          UsbSlot([AccessRecipe(drivesIn, 1)])],
         ByDrive(drivesIn), NoReason)
  }

  lemma UsbSeparate(drivesIn: Facts -> seq<string>, copies: Facts -> bool)
    ensures Separate(UsbPass(drivesIn, copies))
  {
    hide IsDevice, AccessRecipe, DownloadRecipe, CopyRecipe;
    var p := UsbPass(drivesIn, copies);
    forall f: Facts | p.selects(f) ensures !IsDevice(f) { FileLikeIsNoDevice(f); }
    assert p.slots[0].from == IsDevice && p.slots[1].from == IsDevice;
  }

  lemma FileLikeIsNoDevice(f: Facts)
    requires f.kind in FILE_LIKE_KINDS
    ensures !IsDevice(f)
  {}

  lemma UsbNewKinds(drivesIn: Facts -> seq<string>, copies: Facts -> bool)
    ensures NewKinds(UsbPass(drivesIn, copies))
  {
    hide UsbFacts;
    assert |UsbPass(drivesIn, copies).slots| == 2;
  }

  function One(b: bool): nat {
    if b then 1 else 0
  }

  lemma CountDerived(a: Recipe, b: Recipe, c: Recipe, x: Snap, found: seq<seq<Snap>>, base: nat)
    ensures |DerivedBy([a], x, found, base)| == One(Applies(a, x.facts, found))
    ensures |DerivedBy([a, b, c], x, found, base)| ==
      One(Applies(a, x.facts, found)) + One(Applies(b, x.facts, found)) + One(Applies(c, x.facts, found))
  {
    hide Applies, Derived;
    assert [a][..0] == [];
    assert [a, b][..1] == [a] && [a, b, c][..2] == [a, b];
    assert |DerivedBy([], x, found, base)| == 0;
    assert |DerivedBy([a, b], x, found, base)| == One(Applies(a, x.facts, found)) + One(Applies(b, x.facts, found));
  }

  lemma TwoSlots(s: Slot, t: Slot, x: Snap, found: seq<seq<Snap>>, base: nat)
    requires |found| == 2
    ensures var y := EnrichAll(s, x, found[0]);
      var first := DerivedBy(s.derive, y, found, base);
      var z := EnrichAll(t, y, found[1]);
      AfterSlots([s, t], 2, x, found, base) == Outcome(z, first + DerivedBy(t.derive, z, found, base + |first|))
  {
    hide EnrichAll, DerivedBy;
    assert AfterSlots([s, t], 0, x, found, base) == Outcome(x, []);
    assert AfterSlots([s, t], 1, x, found, base) ==
      Outcome(EnrichAll(s, x, found[0]), [] + DerivedBy(s.derive, EnrichAll(s, x, found[0]), found, base));
  }

  /** An item never matches both ways, and without devices it does not match at all. */
  lemma OneMatch(p: Pass, f: Facts, L: seq<Snap>)
    requires p.finder.ByDrive? && |p.slots| == 2
    ensures Matched(p, f, L)[0] == [] || Matched(p, f, L)[1] == []
    ensures (forall s :: s in L ==> !IsDevice(s.facts)) ==> Matched(p, f, L) == [[], []]
  {
    hide IsDevice, DriveOwner, VolumeOwner, SerialOwner, Normalized;
    DriveMatchIsDevice(L, p.finder.drivesIn(f));
    OwnersAreDevices(L, |L|, Normalized(Field(f, "volume_serial")));
    if forall s :: s in L ==> !IsDevice(s.facts) {
      forall k | 0 <= k < 2 ensures Matched(p, f, L)[k] == [] {
        if Matched(p, f, L)[k] != [] { MatchedAreEntries(p, f, L, k, Matched(p, f, L)[k][0]); }
      }
    }
  }

  lemma NeedsMatch(r: Recipe, f: Facts, found: seq<seq<Snap>>, slot: nat)
    requires r.needs == [slot]
    ensures Applies(r, f, found) ==> r.when(f) && slot < |found| && found[slot] != []
  {
    assert slot in r.needs;
  }

  /** The recipes of the first slot exclude one another by kind, and each needs its slot's match. */
  lemma RecipesExclude(drivesIn: Facts -> seq<string>, copies: Facts -> bool, f: Facts, found: seq<seq<Snap>>)
    requires |found| == 2
    ensures One(Applies(AccessRecipe(drivesIn, 0), f, found)) + One(Applies(DownloadRecipe(), f, found))
      + One(Applies(CopyRecipe(drivesIn, copies), f, found)) <= One(found[0] != [])
    ensures One(Applies(AccessRecipe(drivesIn, 1), f, found)) <= One(found[1] != [])
  {
    hide Applies, UsbFacts;
    NeedsMatch(AccessRecipe(drivesIn, 0), f, found, 0);
    NeedsMatch(DownloadRecipe(), f, found, 0);
    NeedsMatch(CopyRecipe(drivesIn, copies), f, found, 0);
    NeedsMatch(AccessRecipe(drivesIn, 1), f, found, 1);
    KindsExclude(f.kind);
  }

  lemma KindsExclude(kind: string)
    ensures One(kind in ACCESS_KINDS) + One(kind == "file_download") + One(kind in SHELL_KINDS) <= 1
  {}

  /** Each item yields at most one derived activity, and without a matching device nothing changes. */
  lemma UsbDerivesAtMostOne(drivesIn: Facts -> seq<string>, copies: Facts -> bool, L: seq<Snap>, i: nat, base: nat)
    requires i < |L|
    ensures |ItemOutcome(UsbPass(drivesIn, copies), L, i, base).derived| <= 1
    ensures (forall s :: s in L ==> !IsDevice(s.facts)) ==>
      ItemOutcome(UsbPass(drivesIn, copies), L, i, base) == Outcome(L[i], [])
  {
    hide Enrich, Matched, IsDevice, Applies, AccessRecipe, DownloadRecipe, CopyRecipe, DerivedBy, AfterSlots;
    var p, x := UsbPass(drivesIn, copies), L[i];
    if p.selects(x.facts) {
      var found := Matched(p, x.facts, L);
      OneMatch(p, x.facts, L);
      var a, b, c, d := AccessRecipe(drivesIn, 0), DownloadRecipe(), CopyRecipe(drivesIn, copies),
        AccessRecipe(drivesIn, 1);
      var s, t := UsbSlot([a, b, c]), UsbSlot([d]);
      assert p.slots == [s, t];
      TwoSlots(s, t, x, found, base);
      var y := EnrichAll(s, x, found[0]);
      var z := EnrichAll(t, y, found[1]);
      EnrichAllFacts(s, x, found[0]);
      EnrichAllFacts(t, y, found[1]);
      CountDerived(a, b, c, y, found, base);
      CountDerived(d, d, d, z, found, base + |DerivedBy([a, b, c], y, found, base)|);
      RecipesExclude(drivesIn, copies, x.facts, found);
    }
  }

  // ---- as it runs -------------------------------------------------------------------

  /** The dictionaries hold activities where the tables hold positions. */
  ghost predicate Mirrors(activities: seq<Activity>, m: map<string, Activity>, t: map<string, nat>) {
    m.Keys == t.Keys && forall key :: key in m ==> t[key] < |activities| && m[key] == activities[t[key]]
  }

  lemma MirrorsPut(activities: seq<Activity>, m: map<string, Activity>, t: map<string, nat>, key: string, n: nat)
    requires Mirrors(activities, m, t) && n < |activities|
    ensures Mirrors(activities, if key == "" then m else m[key := activities[n]], Put(t, key, n))
    ensures Mirrors(activities, if key == "" || key in m then m else m[key := activities[n]], PutNew(t, key, n))
  {}

  /** Building the two dictionaries in one walk over the devices. */
  method BuildTables(activities: seq<Activity>, ghost L: seq<Snap>)
    returns (driveMap: map<string, Activity>, serialMap: map<string, Activity>)
    requires |L| == |activities| && forall j :: 0 <= j < |L| ==> activities[j].facts == L[j].facts
    ensures Mirrors(activities, driveMap, TablesUpTo(L, |L|).drives)
    ensures Mirrors(activities, serialMap, TablesUpTo(L, |L|).serials)
  {
    hide IsDevice, Normalized, Mirrors, Put, PutNew;
    driveMap, serialMap := map[], map[];
    assert Mirrors(activities, map[], map[]) by { NothingMirrors(activities); }
    for n := 0 to |activities|
      invariant Mirrors(activities, driveMap, TablesUpTo(L, n).drives)
      invariant Mirrors(activities, serialMap, TablesUpTo(L, n).serials)
    {
      var item := activities[n];
      if IsDevice(item.facts) {
        ghost var t := TablesUpTo(L, n);
        var drive := Normalized(Field(item.facts, "drive_letter"));
        var volumeSerial := Normalized(Field(item.facts, "volume_serial"));
        var serial := Normalized(Field(item.facts, "serial"));
        MirrorsPut(activities, driveMap, t.drives, drive, n);
        if drive != "" { driveMap := driveMap[drive := item]; }
        MirrorsPut(activities, serialMap, t.serials, volumeSerial, n);
        if volumeSerial != "" { serialMap := serialMap[volumeSerial := item]; }
        MirrorsPut(activities, serialMap, Put(t.serials, volumeSerial, n), serial, n);
        if serial != "" && serial !in serialMap { serialMap := serialMap[serial := item]; }
      }
    }
  }

  lemma NothingMirrors(activities: seq<Activity>)
    ensures Mirrors(activities, map[], map[])
  {}

  /** The candidate drives of an item, tried in order until one has a device. */
  method LookUpDrive(drives: seq<string>, activities: seq<Activity>, driveMap: map<string, Activity>,
                     ghost L: seq<Snap>)
    returns (byDrive: seq<Activity>)
    requires |L| == |activities|
    requires forall j :: 0 <= j < |L| && IsDevice(L[j].facts) ==> activities[j].View() == L[j]
    requires Mirrors(activities, driveMap, TablesUpTo(L, |L|).drives)
    ensures Views(byDrive) == FirstDriveOwner(L, drives)
  {
    hide IsDevice, Normalized, Mirrors, DriveOwner, TablesUpTo;
    byDrive := [];
    var n := 0;
    while n < |drives| && byDrive == []
      invariant 0 <= n <= |drives|
      invariant if byDrive == [] then FirstDriveOwner(L, drives[n..]) == FirstDriveOwner(L, drives)
                else Views(byDrive) == FirstDriveOwner(L, drives)
    {
      var key := Normalized(drives[n]);
      LookedView(activities, driveMap, TablesUpTo(L, |L|).drives, key, L);
      DriveTableIsScan(L, |L|, key);
      OwnersAreDevices(L, |L|, key);
      if key in driveMap { byDrive := [driveMap[key]]; }
      n := n + 1;
    }
  }

  /** The lookups of one item: by drive, and failing that by volume serial. */
  method LookUp(p: Pass, f: Facts, activities: seq<Activity>, driveMap: map<string, Activity>,
                serialMap: map<string, Activity>,
                ghost L: seq<Snap>) returns (found: seq<seq<Activity>>)
    requires p.finder.ByDrive? && |p.slots| == 2 && |L| == |activities|
    requires forall j :: 0 <= j < |L| && IsDevice(L[j].facts) ==> activities[j].View() == L[j]
    requires Mirrors(activities, driveMap, TablesUpTo(L, |L|).drives)
    requires Mirrors(activities, serialMap, TablesUpTo(L, |L|).serials)
    ensures ViewsOf(found) == Matched(p, f, L)
  {
    hide IsDevice, Normalized, Mirrors, TablesUpTo, VolumeOwner, SerialOwner, DriveOwner;
    var byDrive := LookUpDrive(p.finder.drivesIn(f), activities, driveMap, L);
    var bySerial: seq<Activity> := [];
    if byDrive == [] {
      var key := Normalized(Field(f, "volume_serial"));
      LookedView(activities, serialMap, TablesUpTo(L, |L|).serials, key, L);
      SerialTableIsScan(L, |L|, key);
      OwnersAreDevices(L, |L|, key);
      if key in serialMap { bySerial := [serialMap[key]]; }
    }
    assert Views(byDrive) == DeviceOf(f, L, p.finder.drivesIn(f), 0);
    assert Views(bySerial) == DeviceOf(f, L, p.finder.drivesIn(f), 1);
    found := [byDrive, bySerial];
  }

  lemma LookedView(activities: seq<Activity>, m: map<string, Activity>, t: map<string, nat>, key: string, L: seq<Snap>)
    requires |L| == |activities| && Mirrors(activities, m, t)
    requires forall j :: 0 <= j < |L| && IsDevice(L[j].facts) ==> activities[j].View() == L[j]
    ensures key in m <==> Looked(L, t, key) != []
    ensures key in m && IsDevice(Looked(L, t, key)[0].facts) ==> Looked(L, t, key) == [m[key].View()]
  {
    hide IsDevice;
  }

  method LookUpUntouched(p: Pass, activities: seq<Activity>, ghost news: seq<Activity>, n: nat,
                         driveMap: map<string, Activity>, serialMap: map<string, Activity>, ghost L: seq<Snap>,
                           ghost base: nat)
    returns (found: seq<seq<Activity>>)
    requires p.finder.ByDrive? && |p.slots| == 2 && Separate(p) && n < |activities|
      && Underway(p, activities, news, L, n, base)
    requires Mirrors(activities, driveMap, TablesUpTo(L, |L|).drives)
    requires Mirrors(activities, serialMap, TablesUpTo(L, |L|).serials)
    ensures ViewsOf(found) == Matched(p, activities[n].facts, L)
  {
    hide Separate, PassedTo, Mirrors, TablesUpTo, Matched, ViewsOf;
    CandidatesUntouched(p, activities, L, n);
    found := LookUp(p, activities[n].facts, activities, driveMap, serialMap, L);
  }

  /** The item loop, with the dictionaries built beforehand. */
  method CorrelateByTables(p: Pass, activities: seq<Activity>, nextId: nat) returns (all: seq<Activity>, nextId': nat)
    requires p.finder.ByDrive? && |p.slots| == 2 && Separate(p) && DistinctActivities(activities)
    modifies activities
    ensures Views(all) == RunPass(p, old(Views(activities)), nextId)
    ensures nextId' == nextId + |all| - |activities|
    ensures activities <= all && forall k :: |activities| <= k < |all| ==> fresh(all[k])
  {
    hide Separate, Underway, RunPass, Matched, ViewsOf, Mirrors, TablesUpTo;
    ghost var L := Views(activities);
    var driveMap, serialMap := BuildTables(activities, L);
    var news: seq<Activity> := [];
    PassStarts(p, activities, L, nextId);
    for n := 0 to |activities|
      invariant Underway(p, activities, news, L, n, nextId)
      invariant forall k :: 0 <= k < |news| ==> fresh(news[k])
    {
      var found := LookUpUntouched(p, activities, news, n, driveMap, serialMap, L, nextId);
      news := Advance(p, activities, n, found, news, L, nextId, nextId + |news|);
    }
    all, nextId' := activities + news, nextId + |news|;
    PassEnds(p, activities, news, L, nextId);
  }

  /** `correlate_usb_activity`. */
  method CorrelateUsb(drivesIn: Facts -> seq<string>, copies: Facts -> bool, activities: seq<Activity>, nextId: nat)
    returns (all: seq<Activity>, nextId': nat)
    requires DistinctActivities(activities)
    modifies activities
    ensures Views(all) == RunPass(UsbPass(drivesIn, copies), old(Views(activities)), nextId)
    ensures nextId' == nextId + |all| - |activities|
    ensures activities <= all && forall k :: |activities| <= k < |all| ==> fresh(all[k])
  {
    hide *;
    UsbSeparate(drivesIn, copies);
    UsbShape(drivesIn, copies);
    all, nextId' := CorrelateByTables(UsbPass(drivesIn, copies), activities, nextId);
  }

  lemma UsbShape(drivesIn: Facts -> seq<string>, copies: Facts -> bool)
    ensures UsbPass(drivesIn, copies).finder.ByDrive? && |UsbPass(drivesIn, copies).slots| == 2
  {
    hide AccessRecipe, DownloadRecipe, CopyRecipe, UsbSlot;
  }
}
