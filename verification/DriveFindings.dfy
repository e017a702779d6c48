/** What the pass over removable devices reports, said on the recorded facts. */
module DriveFindings {
  import opened Text
  import opened Activities
  import opened Growth
  import opened TablePasses
  import opened Derivations
  import opened Kinds
  import opened Findings
  import opened PassFindings
  import opened Usb

  /** A device with one of these drive letters. */
  predicate OnDrive(drives: seq<string>, g: Facts) {
    && g.kind in {"usb_device_install", "usb_volume_mapping", "portable_device_observed", "usb_device_seen",
                  "mounted_device"}
    && exists n :: 0 <= n < |drives| && Same(Normalized(drives[n]), Read(g, "drive_letter"))
  }

  /** What is derived from an entry that names a drive. */
  function DriveKind(copies: Facts -> bool, f: Facts): string {
    if f.kind in {"opened_file", "recent_file_opened", "downloaded_file_opened", "usb_file_accessed",
                  "removable_media_access"} then "usb_file_access"
    else if f.kind == "file_download" then "usb_download_to_external_drive"
    else if f.kind in {"powershell_execution", "powershell_download"} && copies(f)
    then "possible_usb_exfiltration_candidate"
    else ""
  }

  /** `s` says that entry `i` took place on the drive of device `k`. */
  ghost predicate DriveNote(s: Snap, B: seq<Snap>, i: nat, k: nat, kind: string)
    requires i < |B| && k < |B|
  {
    && s.facts.kind == kind && Holds(s, B[i]) && Holds(s, B[k])
    && "related_usb_device" in s.body.links && s.body.links["related_usb_device"] == B[k].facts.id
  }

  /** Every such entry on the drive of a device has an activity that names a device with that drive. */
  ghost predicate DrivesNoted(F: seq<Snap>, B: seq<Snap>, drivesIn: Facts -> seq<string>, copies: Facts -> bool) {
    forall i: nat, j: nat ::
      i < |B| && j < |B| && OnDrive(drivesIn(B[i].facts), B[j].facts) && DriveKind(copies, B[i].facts) != "" ==>
      exists q: nat, k: nat ::
        |B| <= q < |F| && k < |B| && OnDrive(drivesIn(B[i].facts), B[k].facts)
        && DriveNote(F[q], B, i, k, DriveKind(copies, B[i].facts))
  }

  lemma UsbStep(drivesIn: Facts -> seq<string>, copies: Facts -> bool)
    ensures Makes(UsbPass(drivesIn, copies), 9) && KeepsLinks(UsbPass(drivesIn, copies))
  {
    hide Place, UsbFacts;
    DriveKinds();
    assert |UsbPass(drivesIn, copies).slots| == 2;
  }

  lemma {:induction false} OwnerHasDrive(L: seq<Snap>, n: nat, key: string, j: nat)
    requires n <= |L| && j < n && key != "" && IsDevice(L[j].facts) && Read(L[j].facts, "drive_letter") == key
    ensures DriveOwner(L, n, key) != []
    ensures var y := DriveOwner(L, n, key)[0]; y in L && IsDevice(y.facts) && Read(y.facts, "drive_letter") == key
  {
    hide IsDevice, Normalized, Field;
    if !(IsDevice(L[n - 1].facts) && Read(L[n - 1].facts, "drive_letter") == key) { OwnerHasDrive(L, n - 1, key, j); }
  }

  lemma {:induction false} AnyOwner(L: seq<Snap>, n: nat, key: string)
    requires n <= |L|
    ensures DriveOwner(L, n, key) != [] ==>
      var y := DriveOwner(L, n, key)[0];
      y in L && IsDevice(y.facts) && Read(y.facts, "drive_letter") == key && key != ""
  {
    hide IsDevice, Normalized, Field;
    if n > 0 { AnyOwner(L, n - 1, key); }
  }

  /** Some candidate drive of a device has an owner, and the first that has gives a device with it. */
  lemma {:induction false} DriveFound(L: seq<Snap>, drives: seq<string>, n: nat, j: nat)
    requires n < |drives| && j < |L| && IsDevice(L[j].facts)
    requires Same(Normalized(drives[n]), Read(L[j].facts, "drive_letter"))
    ensures var found := FirstDriveOwner(L, drives);
      found != [] && found[0] in L && IsDevice(found[0].facts)
      && exists m :: 0 <= m < |drives| && Same(Normalized(drives[m]), Read(found[0].facts, "drive_letter"))
  {
    hide IsDevice, Normalized, Field, DriveOwner;
    var key := Normalized(drives[0]);
    AnyOwner(L, |L|, key);
    if n == 0 {
      OwnerHasDrive(L, |L|, key, j);
    } else if DriveOwner(L, |L|, key) == [] {
      DriveFound(L, drives[1..], n - 1, j);
      var y := FirstDriveOwner(L, drives[1..])[0];
      var m :| 0 <= m < |drives[1..]| && Same(Normalized(drives[1..][m]), Read(y.facts, "drive_letter"));
      assert drives[1..][m] == drives[m + 1];
    }
  }

  /** The recipe by which an entry on the drive of a device is noted. */
  function DriveRecipe(drivesIn: Facts -> seq<string>, copies: Facts -> bool, f: Facts): Recipe {
    if f.kind in ACCESS_KINDS then AccessRecipe(drivesIn, 0)
    else if f.kind == "file_download" then DownloadRecipe()
    else CopyRecipe(drivesIn, copies)
  }

  lemma DriveRecipeApplies(drivesIn: Facts -> seq<string>, copies: Facts -> bool, f: Facts)
    requires DriveKind(copies, f) != ""
    ensures var p, r := UsbPass(drivesIn, copies), DriveRecipe(drivesIn, copies, f);
      && p.finder == ByDrive(drivesIn) && |p.slots| == 2 && p.selects(f)
      && r in p.slots[0].derive && r.when(f) && r.kind == DriveKind(copies, f)
      && r.needs == [0] && r.uses == [0] && r.links == [("related_usb_device", 0)] && !r.byEvent
  {
    hide UsbFacts;
  }

  lemma DriveItem(drivesIn: Facts -> seq<string>, copies: Facts -> bool, L: seq<Snap>, i: nat, j: nat, base: nat)
    returns (x: Snap, k: nat)
    requires i < |L| && j < |L| && DriveKind(copies, L[i].facts) != "" && OnDrive(drivesIn(L[i].facts), L[j].facts)
    ensures x in ItemOutcome(UsbPass(drivesIn, copies), L, i, base).derived
    ensures k < |L| && OnDrive(drivesIn(L[i].facts), L[k].facts) && DriveNote(x, L, i, k, DriveKind(copies, L[i].facts))
  {
    hide UsbPass, Normalized, Field, FirstDriveOwner, AfterSlots, Firing, BuiltBy, DriveKind, DriveRecipe, Holds;
    var p, f := UsbPass(drivesIn, copies), L[i].facts;
    var r, found, D := DriveRecipe(drivesIn, copies, f), Matched(p, f, L), ItemOutcome(p, L, i, base).derived;
    DriveRecipeApplies(drivesIn, copies, f);
    var n :| 0 <= n < |drivesIn(f)| && Same(Normalized(drivesIn(f)[n]), Read(L[j].facts, "drive_letter"));
    DriveFound(L, drivesIn(f), n, j);
    assert found[0] == FirstDriveOwner(L, drivesIn(f));
    FiringHas(p.slots, 2, 0, r, f, found);
    UsbNames(drivesIn, copies);
    DerivedInOrder(p, L, i, base);
    var fired := Firing(p.slots, 2, f, found);
    var m :| 0 <= m < |fired| && fired[m] == r;
    x := D[m];
    k :| 0 <= k < |L| && L[k] == found[0][0];
    DriveBuilt(x, r, f, found, base + m);
  }

  lemma UsbNames(drivesIn: Facts -> seq<string>, copies: Facts -> bool)
    ensures AllNamed(UsbPass(drivesIn, copies).slots)
  {
    hide UsbFacts;
  }

  lemma DriveBuilt(x: Snap, r: Recipe, f: Facts, found: seq<seq<Snap>>, id: nat)
    requires BuiltBy(x, r, f, found, id) && HasMatch(found, 0)
    requires r.uses == [0] && r.links == [("related_usb_device", 0)] && !r.byEvent
    ensures x.facts.kind == r.kind && Holds(x, found[0][0])
    ensures "related_usb_device" in x.body.links && x.body.links["related_usb_device"] == found[0][0].facts.id
  {
    hide Holds, NotesEvent;
    assert 0 in r.uses;
    assert PointsAt(x.body.links, r.links[0], found);
  }

  lemma DeviceIsEarly(B: seq<Snap>, L: seq<Snap>, drives: seq<string>, k: nat, a: nat)
    requires InPlaces(L, |B|, a) && k < |L| && OnDrive(drives, L[k].facts)
    ensures k < |B|
  {
    hide Place, Normalized, Field;
    RecordedHaveNoPlace();
    assert Place(L[k].facts.kind) == 0;
  }

  lemma DriveNoteEarly(x: Snap, B: seq<Snap>, L: seq<Snap>, i: nat, k: nat, kind: string)
    requires Extends(B, L) && i < |B| && k < |B| && DriveNote(x, L, i, k, kind)
    ensures DriveNote(x, B, i, k, kind) && L[i].facts == B[i].facts && L[k].facts == B[k].facts
  {
    hide Evidence, DistinctIds, LinksResolve;
    assert Holds(L[i], B[i]) && Holds(L[k], B[k]);
  }

  lemma StepNotesDrive(B: seq<Snap>, L: seq<Snap>, M: seq<Snap>, base: nat, drivesIn: Facts -> seq<string>,
                       copies: Facts -> bool, i: nat, j: nat, a: nat)
    returns (q: nat, k: nat)
    requires Extends(B, L) && InPlaces(L, |B|, a) && Adds(L, M, UsbPass(drivesIn, copies), base)
    requires i < |B| && j < |B| && OnDrive(drivesIn(B[i].facts), B[j].facts) && DriveKind(copies, B[i].facts) != ""
    ensures |B| <= q < |M| && k < |B| && OnDrive(drivesIn(B[i].facts), B[k].facts)
    ensures DriveNote(M[q], B, i, k, DriveKind(copies, B[i].facts))
  {
    hide UsbPass, OnDrive, DriveKind, DriveNote, Extends, InPlaces, NewUpTo, ItemOutcome;
    SameFacts(B, L, i);
    SameFacts(B, L, j);
    var x: Snap;
    x, k := DriveItem(drivesIn, copies, L, i, j, base + |NewUpTo(UsbPass(drivesIn, copies), L, i, base)|);
    NewHas(UsbPass(drivesIn, copies), L, |L|, base, i, x);
    var m :| 0 <= m < |M[|L|..]| && M[|L|..][m] == x;
    q := |L| + m;
    DeviceIsEarly(B, L, drivesIn(B[i].facts), k, a);
    DriveNoteEarly(x, B, L, i, k, DriveKind(copies, B[i].facts));
  }

  /** Every entry on the drive of a device has its activity in the list that a run ends with. */
  lemma RunNotesDrives(lists: seq<seq<Snap>>, a: nat, base: nat, drivesIn: Facts -> seq<string>, copies: Facts -> bool)
    requires Steady(lists) && a < |lists| - 1 && Adds(lists[a], lists[a + 1], UsbPass(drivesIn, copies), base)
    ensures DrivesNoted(lists[|lists| - 1], lists[0], drivesIn, copies)
  {
    hide UsbPass, OnDrive, DriveKind, DriveNote, Extends, InPlaces, Adds, Steady, Holds;
    RunExtends(lists, a);
    RunInPlaces(lists, a);
    var B, F := lists[0], lists[|lists| - 1];
    forall i: nat, j: nat |
      i < |B| && j < |B| && OnDrive(drivesIn(B[i].facts), B[j].facts) && DriveKind(copies, B[i].facts) != ""
      ensures exists q: nat, k: nat ::
                |B| <= q < |F| && k < |B| && OnDrive(drivesIn(B[i].facts), B[k].facts)
                && DriveNote(F[q], B, i, k, DriveKind(copies, B[i].facts))
    {
      var q, k := StepNotesDrive(B, lists[a], lists[a + 1], base, drivesIn, copies, i, j, a);
      StaysPut(lists, a + 1, |lists| - 1, q);
      DriveNoteStays(lists[a + 1][q], F[q], B, i, k, DriveKind(copies, B[i].facts));
    }
  }

  lemma DriveNoteStays(s: Snap, s': Snap, B: seq<Snap>, i: nat, k: nat, kind: string)
    requires i < |B| && k < |B| && DriveNote(s, B, i, k, kind)
    requires s'.facts == s.facts && Holds(s', s) && s'.body.links == s.body.links
    ensures DriveNote(s', B, i, k, kind)
  {}
}
