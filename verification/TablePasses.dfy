/** The append-only correlation passes. They share one shape: for each selected item, look for
    matching candidates slot by slot, enrich the item with what was found, and append derived
    activities that point back at the matches. A `Pass` value holds what differs between them. */
module TablePasses {
  import opened Text
  import opened Activities
  import opened Greedy
  import opened Dedup
  import opened Growth

  /** Whether a loop over candidates stops at its first match. */
  datatype Mode = First | All

  /** How to build a derived activity. Slot numbers refer to the pass's slots. */
  datatype Recipe = Recipe(
    kind: string,
    when: Facts -> bool,
    needs: seq<nat>,                                   // slots that must have a match
    facts: (Facts, seq<Option<Facts>>) -> Facts,       // stamp and key fields
    uses: seq<nat>,                                    // slots whose first match adds its evidence; none: a plain copy
    reasonsFrom: seq<nat>,
    links: seq<(string, nat)>,                         // key field := the slot's first match
    byEvent: bool,                                     // named by its first related event if it has one, else by its id
    tags: seq<string>,
    reasons: seq<string>,
    confidence: (real, seq<Option<Facts>>) -> real)

  datatype Slot = Slot(
    from: Facts -> bool,                               // the candidate list
    matches: (Facts, Snap) -> bool,                    // item, candidate
    mode: Mode,
    tags: seq<string>,
    takesReasons: bool,
    reasons: seq<string>,
    floor: (Facts, Facts) -> real,
    annotate: (map<string, string>, Snap) -> map<string, string>,
    link: Option<string>,                              // key field of the item set to the match's id
    unless: Option<nat>,                               // an earlier slot whose match makes this one superfluous
    derive: seq<Recipe>)

  /** How an item's matches are found: by a loop over the candidates of each slot, or, in the
      removable-device pass, through tables keyed by drive letter and serial number. */
  datatype Finder = Scan | ByDrive(drivesIn: Facts -> seq<string>)

  /** `closing` is a reason that an item gets at the end of its round, matched or not. */
  datatype Pass = Pass(selects: Facts -> bool, slots: seq<Slot>, finder: Finder, closing: Facts -> Option<string>)

  function NoReason(f: Facts): Option<string> {
    None
  }

  /** No entry is both an item and a candidate, so candidates keep their bodies during the pass. */
  ghost predicate Separate(p: Pass) {
    && (forall f: Facts, k :: 0 <= k < |p.slots| && p.selects(f) ==> !p.slots[k].from(f))
    && (p.finder.ByDrive? ==> forall f: Facts :: p.selects(f) ==> !IsDevice(f))
    && WellOrdered(p.slots)
  }

  /** A slot stands in only for an earlier one that stands in for none. */
  ghost predicate WellOrdered(slots: seq<Slot>) {
    forall k :: 0 <= k < |slots| && slots[k].unless.Some? ==>
      slots[k].unless.value < k && slots[slots[k].unless.value].unless.None?
  }

  /** The kinds that the merging passes look at. */
  const MERGED_KINDS := EXECUTION_KINDS + FILE_ACCESS_KINDS

  /** A pass derives nothing that a merging pass would look at. */
  ghost predicate NewKinds(p: Pass) {
    forall k, r :: 0 <= k < |p.slots| && r in p.slots[k].derive ==> r.kind !in MERGED_KINDS
  }

  /** A scanning pass without stand-in slots. */
  ghost predicate Plain(p: Pass) {
    p.finder.Scan? && NewKinds(p) && forall k :: 0 <= k < |p.slots| ==> p.slots[k].unless.None?
  }

  lemma PlainIsSeparate(p: Pass)
    requires Plain(p) && forall f: Facts, k :: 0 <= k < |p.slots| && p.selects(f) ==> !p.slots[k].from(f)
    ensures Separate(p)
  {}

  // ---- one item ------------------------------------------------------------

  /** The matches of one slot among `L[..n]`, in list order. */
  function FoundUpTo(s: Slot, f: Facts, L: seq<Snap>, n: nat): seq<Snap>
    requires n <= |L|
  {
    if n == 0 then []
    else
      var before := FoundUpTo(s, f, L, n - 1);
      if s.from(L[n - 1].facts) && s.matches(f, L[n - 1]) && !(s.mode.First? && before != [])
      then before + [L[n - 1]] else before
  }

  /** Whether the slot that slot `k` stands in for has a match. */
  predicate Superfluous(slots: seq<Slot>, k: nat, f: Facts, L: seq<Snap>)
    requires k < |slots|
  {
    var u := slots[k].unless;
    u.Some? && u.value < |slots| && FoundUpTo(slots[u.value], f, L, |L|) != []
  }

  function FoundAll(slots: seq<Slot>, f: Facts, L: seq<Snap>): (r: seq<seq<Snap>>)
    ensures |r| == |slots|
    ensures forall k :: 0 <= k < |slots| ==>
      r[k] == if Superfluous(slots, k, f, L) then [] else FoundUpTo(slots[k], f, L, |L|)
  {
    seq(|slots|, k requires 0 <= k < |slots| =>
      if Superfluous(slots, k, f, L) then [] else FoundUpTo(slots[k], f, L, |L|))
  }

  const DEVICE_KINDS := {"usb_device_install", "usb_volume_mapping", "portable_device_observed", "usb_device_seen",
                         "mounted_device"}

  predicate IsDevice(f: Facts) {
    f.kind in DEVICE_KINDS
  }

  /** The last device of `L[..n]` with this drive letter. */
  function DriveOwner(L: seq<Snap>, n: nat, drive: string): seq<Snap>
    requires n <= |L|
  {
    if n == 0 || drive == "" then []
    else if IsDevice(L[n - 1].facts) && Normalized(Field(L[n - 1].facts, "drive_letter")) == drive then [L[n - 1]]
    else DriveOwner(L, n - 1, drive)
  }

  /** The last device of `L[..n]` with this volume serial. */
  function VolumeOwner(L: seq<Snap>, n: nat, serial: string): seq<Snap>
    requires n <= |L|
  {
    if n == 0 || serial == "" then []
    else if IsDevice(L[n - 1].facts) && Normalized(Field(L[n - 1].facts, "volume_serial")) == serial then [L[n - 1]]
    else VolumeOwner(L, n - 1, serial)
  }

  /** The first device of `L[..n]` with this device serial. */
  function SerialOwner(L: seq<Snap>, n: nat, serial: string): seq<Snap>
    requires n <= |L|
  {
    if n == 0 || serial == "" then []
    else if SerialOwner(L, n - 1, serial) != [] then SerialOwner(L, n - 1, serial)
    else if IsDevice(L[n - 1].facts) && Normalized(Field(L[n - 1].facts, "serial")) == serial then [L[n - 1]]
    else []
  }

  /** What the serial table answers: a volume serial wins over a device serial. */
  function SerialTable(L: seq<Snap>, n: nat, serial: string): seq<Snap>
    requires n <= |L|
  {
    if VolumeOwner(L, n, serial) != [] then VolumeOwner(L, n, serial) else SerialOwner(L, n, serial)
  }

  /** The device of the first candidate drive that any device has. */
  function FirstDriveOwner(L: seq<Snap>, drives: seq<string>): seq<Snap> {
    if drives == [] then []
    else if DriveOwner(L, |L|, Normalized(drives[0])) != [] then DriveOwner(L, |L|, Normalized(drives[0]))
    else FirstDriveOwner(L, drives[1..])
  }

  /** Slot 0 is the match by drive, slot 1 the match by serial, tried only without the former. */
  function DeviceOf(f: Facts, L: seq<Snap>, drives: seq<string>, k: nat): seq<Snap> {
    var byDrive := FirstDriveOwner(L, drives);
    if k == 0 then byDrive
    else if k == 1 && byDrive == [] then SerialTable(L, |L|, Normalized(Field(f, "volume_serial")))
    else []
  }

  function Matched(p: Pass, f: Facts, L: seq<Snap>): (r: seq<seq<Snap>>)
    ensures |r| == |p.slots|
  {
    match p.finder
    case Scan => FoundAll(p.slots, f, L)
    case ByDrive(drivesIn) => seq(|p.slots|, k requires 0 <= k < |p.slots| => DeviceOf(f, L, drivesIn(f), k))
  }

  function HeadFacts(found: seq<seq<Snap>>): (r: seq<Option<Facts>>)
    ensures |r| == |found|
  {
    seq(|found|, k requires 0 <= k < |found| => if found[k] == [] then None else Some(found[k][0].facts))
  }

  function Enrich(s: Slot, x: Snap, y: Snap): Snap {
    var reasons := (if s.takesReasons then y.body.reasons else []) + s.reasons;
    Snap(x.facts, WithEvidence(x.body, y.body, s.tags).(
      reasons := if s.takesReasons || s.reasons != [] then MergeLists(x.body.reasons, reasons) else x.body.reasons,
      confidence := MaxReal(x.body.confidence, s.floor(x.facts, y.facts)),
      notes := s.annotate(x.body.notes, y),
      links := if s.link.Some? then x.body.links[s.link.value := y.facts.id] else x.body.links))
  }

  function EnrichAll(s: Slot, x: Snap, found: seq<Snap>): Snap {
    if found == [] then x else Enrich(s, EnrichAll(s, x, found[..|found| - 1]), found[|found| - 1])
  }

  /** The lists of the first matches of the given slots, one after the other. */
  function Pool(w: Listing, uses: seq<nat>, found: seq<seq<Snap>>): seq<string> {
    if uses == [] then []
    else
      var k := uses[0];
      (if k < |found| && found[k] != [] then Listed(w, found[k][0].body) else []) + Pool(w, uses[1..], found)
  }

  /** A slot without a match clears its key field. */
  function LinkTo(links: map<string, nat>, names: seq<(string, nat)>, found: seq<seq<Snap>>): map<string, nat> {
    if names == [] then links
    else
      var rest, k := LinkTo(links, names[1..], found), names[0].1;
      if k < |found| && found[k] != [] then rest[names[0].0 := found[k][0].facts.id] else rest - {names[0].0}
  }

  /** The matches without those that go by an event. */
  function Eventless(found: seq<seq<Snap>>): (r: seq<seq<Snap>>)
    ensures |r| == |found|
  {
    seq(|found|, k requires 0 <= k < |found| =>
      if found[k] != [] && found[k][0].body.events != [] then [] else found[k])
  }

  /** The matches that a recipe names by id. */
  function NamedById(r: Recipe, found: seq<seq<Snap>>): seq<seq<Snap>> {
    if r.byEvent then Eventless(found) else found
  }

  /** The key fields that hold the first related event of a match. */
  function EventNotes(notes: map<string, string>, names: seq<(string, nat)>,
                      found: seq<seq<Snap>>): map<string, string> {
    if names == [] then notes
    else
      var rest, k := EventNotes(notes, names[1..], found), names[0].1;
      if k < |found| && found[k] != [] && found[k][0].body.events != []
      then rest[names[0].0 := found[k][0].body.events[0]] else rest - {names[0].0}
  }

  predicate Applies(r: Recipe, f: Facts, found: seq<seq<Snap>>) {
    r.when(f) && forall k :: k in r.needs ==> k < |found| && found[k] != []
  }

  function Derived(r: Recipe, x: Snap, found: seq<seq<Snap>>, id: nat): Snap {
    Snap(r.facts(x.facts, HeadFacts(found)).(id := id, kind := r.kind),
         x.body.(refs := if r.uses == [] then x.body.refs else MergeLists(x.body.refs, Pool(RefList, r.uses, found)),
                 events := if r.uses == [] then x.body.events
                   else MergeLists(x.body.events, Pool(EventList, r.uses, found)),
                 tags := MergeLists(x.body.tags, r.tags),
                 reasons := MergeLists(x.body.reasons, Pool(ReasonList, r.reasonsFrom, found) + r.reasons),
                 confidence := r.confidence(x.body.confidence, HeadFacts(found)),
                 notes := if r.byEvent then EventNotes(x.body.notes, r.links, found) else x.body.notes,
                 links := LinkTo(x.body.links, r.links, NamedById(r, found))))
  }

  function DerivedBy(recipes: seq<Recipe>, x: Snap, found: seq<seq<Snap>>, base: nat): seq<Snap> {
    if recipes == [] then []
    else
      var front := DerivedBy(recipes[..|recipes| - 1], x, found, base);
      var last := recipes[|recipes| - 1];
      if Applies(last, x.facts, found) then front + [Derived(last, x, found, base + |front|)] else front
  }

  datatype Outcome = Outcome(item: Snap, derived: seq<Snap>)

  /** The item and the derived activities after the first `k` slots. */
  function AfterSlots(slots: seq<Slot>, k: nat, x: Snap, found: seq<seq<Snap>>, base: nat): Outcome
    requires k <= |slots| == |found|
  {
    if k == 0 then Outcome(x, [])
    else
      var o := AfterSlots(slots, k - 1, x, found, base);
      var item := EnrichAll(slots[k - 1], o.item, found[k - 1]);
      Outcome(item, o.derived + DerivedBy(slots[k - 1].derive, item, found, base + |o.derived|))
  }

  /** The closing reason joins the others unless it is there already. */
  function Close(p: Pass, x: Snap): Snap {
    var reason := p.closing(x.facts);
    if reason.None? || reason.value in x.body.reasons then x
    else Snap(x.facts, x.body.(reasons := MergeLists(x.body.reasons, [reason.value])))
  }

  function ItemOutcome(p: Pass, L: seq<Snap>, i: nat, base: nat): Outcome
    requires i < |L|
  {
    if p.selects(L[i].facts) then
      var o := AfterSlots(p.slots, |p.slots|, L[i], Matched(p, L[i].facts, L), base);
      Outcome(Close(p, o.item), o.derived)
    else Outcome(L[i], [])
  }

  // ---- the whole pass -------------------------------------------------------

  /** The activities derived from `L[..n]`. */
  function NewUpTo(p: Pass, L: seq<Snap>, n: nat, base: nat): seq<Snap>
    requires n <= |L|
  {
    if n == 0 then []
    else
      var before := NewUpTo(p, L, n - 1, base);
      before + ItemOutcome(p, L, n - 1, base + |before|).derived
  }

  /** What becomes of entry `i`; ids of derived activities do not matter to it. */
  function ItemAfter(p: Pass, L: seq<Snap>, i: nat): Snap
    requires i < |L|
  {
    ItemOutcome(p, L, i, 0).item
  }

  function RunPass(p: Pass, L: seq<Snap>, base: nat): seq<Snap> {
    seq(|L|, i requires 0 <= i < |L| => ItemAfter(p, L, i)) + NewUpTo(p, L, |L|, base)
  }

  lemma {:induction false} ItemIgnoresIds(slots: seq<Slot>, k: nat, x: Snap, found: seq<seq<Snap>>, base: nat,
                                          base': nat)
    requires k <= |slots| == |found|
    ensures AfterSlots(slots, k, x, found, base).item == AfterSlots(slots, k, x, found, base').item
    ensures AfterSlots(slots, k, x, found, base).item.facts == x.facts
  {
    hide Enrich, DerivedBy;
    if k > 0 {
      ItemIgnoresIds(slots, k - 1, x, found, base, base');
      EnrichAllFacts(slots[k - 1], AfterSlots(slots, k - 1, x, found, base).item, found[k - 1]);
    }
  }

  lemma {:induction false} EnrichAllFacts(s: Slot, x: Snap, found: seq<Snap>)
    ensures EnrichAll(s, x, found).facts == x.facts
  {
    if found != [] { EnrichAllFacts(s, x, found[..|found| - 1]); }
  }

  // ---- nothing lost, nothing invented, nothing dangling ----------------------

  lemma {:induction false} FoundAreEntries(s: Slot, f: Facts, L: seq<Snap>, n: nat)
    requires n <= |L|
    ensures forall y :: y in FoundUpTo(s, f, L, n) ==> y in L && s.from(y.facts) && s.matches(f, y)
    ensures s.mode.First? ==> |FoundUpTo(s, f, L, n)| <= 1
  {
    if n > 0 { FoundAreEntries(s, f, L, n - 1); }
  }

  lemma {:induction false} OwnersAreDevices(L: seq<Snap>, n: nat, key: string)
    requires n <= |L|
    ensures forall y :: y in DriveOwner(L, n, key) + VolumeOwner(L, n, key) + SerialOwner(L, n, key) ==>
      y in L && IsDevice(y.facts)
    ensures |DriveOwner(L, n, key)| <= 1 && |VolumeOwner(L, n, key)| <= 1 && |SerialOwner(L, n, key)| <= 1
  {
    hide IsDevice, Normalized;
    if n > 0 { OwnersAreDevices(L, n - 1, key); }
  }

  lemma {:induction false} DriveMatchIsDevice(L: seq<Snap>, drives: seq<string>)
    ensures forall y :: y in FirstDriveOwner(L, drives) ==> y in L && IsDevice(y.facts)
    ensures |FirstDriveOwner(L, drives)| <= 1
  {
    hide IsDevice, Normalized, DriveOwner;
    if drives != [] {
      OwnersAreDevices(L, |L|, Normalized(drives[0]));
      DriveMatchIsDevice(L, drives[1..]);
    }
  }

  /** Whatever an item is matched with is an entry of the list and a candidate, hence not an item. */
  lemma MatchedAreEntries(p: Pass, f: Facts, L: seq<Snap>, k: nat, y: Snap)
    requires k < |p.slots| && y in Matched(p, f, L)[k]
    ensures y in L && if p.finder.Scan? then p.slots[k].from(y.facts) else IsDevice(y.facts)
  {
    hide IsDevice, FoundUpTo;
    match p.finder
    case Scan => FoundAreEntries(p.slots[k], f, L, |L|);
    case ByDrive(drivesIn) =>
      DriveMatchIsDevice(L, drivesIn(f));
      OwnersAreDevices(L, |L|, Normalized(Field(f, "volume_serial")));
  }

  ghost predicate AllFit(found: seq<seq<Snap>>, h: Holdings) {
    forall k, y :: 0 <= k < |found| && y in found[k] ==> Fits(y, h) && y.facts.id in h.ids
  }

  lemma EnrichFits(s: Slot, x: Snap, y: Snap, h: Holdings)
    requires Fits(x, h) && Fits(y, h) && y.facts.id in h.ids
    ensures Fits(Enrich(s, x, y), h) && Holds(Enrich(s, x, y), x)
  {
    hide SortedSet;
  }

  lemma {:induction false} EnrichAllFits(s: Slot, x: Snap, found: seq<Snap>, h: Holdings)
    requires Fits(x, h) && forall y :: y in found ==> Fits(y, h) && y.facts.id in h.ids
    ensures Fits(EnrichAll(s, x, found), h) && Holds(EnrichAll(s, x, found), x)
  {
    hide Enrich, Fits;
    if found != [] {
      var front, last := found[..|found| - 1], found[|found| - 1];
      EnrichAllFits(s, x, front, h);
      assert last in found;
      EnrichFits(s, EnrichAll(s, x, front), last, h);
    }
  }

  lemma {:induction false} PoolFits(uses: seq<nat>, found: seq<seq<Snap>>, h: Holdings)
    requires AllFit(found, h)
    ensures Elems(Pool(RefList, uses, found)) <= h.refs && Elems(Pool(EventList, uses, found)) <= h.events
  {
    if uses != [] {
      PoolFits(uses[1..], found, h);
      var k := uses[0];
      if k < |found| && found[k] != [] { assert found[k][0] in found[k]; }
    }
  }

  lemma {:induction false} LinksFit(links: map<string, nat>, names: seq<(string, nat)>, found: seq<seq<Snap>>,
                                    h: Holdings)
    requires AllFit(found, h) && forall name :: name in links ==> links[name] in h.ids
    ensures forall name :: name in LinkTo(links, names, found) ==> LinkTo(links, names, found)[name] in h.ids
  {
    hide Fits;
    if names != [] {
      LinksFit(links, names[1..], found, h);
      var k := names[0].1;
      if k < |found| && found[k] != [] { assert found[k][0] in found[k]; }
    }
  }

  lemma EventlessFit(found: seq<seq<Snap>>, h: Holdings)
    requires AllFit(found, h)
    ensures AllFit(Eventless(found), h)
  {
    hide Fits;
  }

  lemma DerivedFits(r: Recipe, x: Snap, found: seq<seq<Snap>>, id: nat, h: Holdings)
    requires Fits(x, h) && AllFit(found, h)
    ensures Fits(Derived(r, x, found, id), h) && Derived(r, x, found, id).facts.id == id
  {
    hide AllFit, SortedSet;
    PoolFits(r.uses, found, h);
    assert AllFit(NamedById(r, found), h) by { EventlessFit(found, h); }
    LinksFit(x.body.links, r.links, NamedById(r, found), h);
  }

  /** New activities fit and have the ids `base`, `base + 1`, ... */
  ghost predicate Fresh(news: seq<Snap>, base: nat, h: Holdings) {
    forall k :: 0 <= k < |news| ==> Fits(news[k], h) && news[k].facts.id == base + k
  }

  lemma {:induction false} DerivedByFits(recipes: seq<Recipe>, x: Snap, found: seq<seq<Snap>>, base: nat, h: Holdings)
    requires Fits(x, h) && AllFit(found, h)
    ensures Fresh(DerivedBy(recipes, x, found, base), base, h)
  {
    hide Fits, AllFit, Derived, Applies;
    if recipes != [] {
      var front := recipes[..|recipes| - 1];
      DerivedByFits(front, x, found, base, h);
      DerivedFits(recipes[|recipes| - 1], x, found, base + |DerivedBy(front, x, found, base)|, h);
    }
  }

  lemma {:induction false} AfterSlotsFit(slots: seq<Slot>, k: nat, x: Snap, found: seq<seq<Snap>>, base: nat,
                                         h: Holdings)
    requires k <= |slots| == |found| && Fits(x, h) && AllFit(found, h)
    ensures Fits(AfterSlots(slots, k, x, found, base).item, h) && Holds(AfterSlots(slots, k, x, found, base).item, x)
    ensures Fresh(AfterSlots(slots, k, x, found, base).derived, base, h)
  {
    hide Fits, EnrichAll, DerivedBy;
    if k > 0 {
      AfterSlotsFit(slots, k - 1, x, found, base, h);
      var o := AfterSlots(slots, k - 1, x, found, base);
      EnrichAllFits(slots[k - 1], o.item, found[k - 1], h);
      DerivedByFits(slots[k - 1].derive, EnrichAll(slots[k - 1], o.item, found[k - 1]), found, base + |o.derived|, h);
    }
  }

  lemma ItemFits(p: Pass, L: seq<Snap>, i: nat, base: nat, h: Holdings)
    requires i < |L| && forall s :: s in L ==> Fits(s, h) && s.facts.id in h.ids
    ensures Fits(ItemOutcome(p, L, i, base).item, h) && Holds(ItemOutcome(p, L, i, base).item, L[i])
    ensures ItemOutcome(p, L, i, base).item == ItemAfter(p, L, i) && ItemAfter(p, L, i).facts == L[i].facts
    ensures Fresh(ItemOutcome(p, L, i, base).derived, base, h)
  {
    hide Fits, AfterSlots;
    if p.selects(L[i].facts) {
      var found := Matched(p, L[i].facts, L);
      forall k, y | 0 <= k < |found| && y in found[k] ensures Fits(y, h) && y.facts.id in h.ids {
        MatchedAreEntries(p, L[i].facts, L, k, y);
      }
      AfterSlotsFit(p.slots, |p.slots|, L[i], found, base, h);
      ItemIgnoresIds(p.slots, |p.slots|, L[i], found, base, 0);
      CloseFits(p, AfterSlots(p.slots, |p.slots|, L[i], found, base).item, L[i], h);
    }
  }

  lemma CloseFits(p: Pass, x: Snap, y: Snap, h: Holdings)
    requires Fits(x, h) && Holds(x, y)
    ensures Fits(Close(p, x), h) && Holds(Close(p, x), y) && Close(p, x).facts == x.facts
  {}

  lemma {:induction false} NewFit(p: Pass, L: seq<Snap>, n: nat, base: nat, h: Holdings)
    requires n <= |L| && forall s :: s in L ==> Fits(s, h) && s.facts.id in h.ids
    ensures Fresh(NewUpTo(p, L, n, base), base, h)
  {
    hide Fits, ItemOutcome;
    if n > 0 {
      NewFit(p, L, n - 1, base, h);
      ItemFits(p, L, n - 1, base + |NewUpTo(p, L, n - 1, base)|, h);
    }
  }

  /** A table pass only extends the list: entries keep their place, facts and evidence, new ones
      are appended, no evidence is lost or invented and every stored link resolves. */
  lemma PassExtends(p: Pass, L: seq<Snap>, base: nat)
    requires DistinctIds(L) && LinksResolve(L) && forall s :: s in L ==> s.facts.id < base
    ensures Extends(L, RunPass(p, L, base))
    ensures forall s :: s in RunPass(p, L, base) ==> s.facts.id < base + |NewUpTo(p, L, |L|, base)|
  {
    hide Fits, ItemAfter, NewUpTo;
    var h := HoldingsOf(L);
    EntriesFit(L);
    NewFit(p, L, |L|, base, h);
    forall i | 0 <= i < |L|
      ensures Fits(ItemAfter(p, L, i), h) && Holds(ItemAfter(p, L, i), L[i]) && ItemAfter(p, L, i).facts == L[i].facts
    {
      ItemFits(p, L, i, base, h);
    }
    ExtendsWhen(L, RunPass(p, L, base));
    forall s | s in RunPass(p, L, base) ensures s.facts.id < base + |NewUpTo(p, L, |L|, base)| {
      var k :| 0 <= k < |RunPass(p, L, base)| && RunPass(p, L, base)[k] == s;
      if k < |L| { assert s.facts == L[k].facts && L[k] in L; }
      else { assert s == NewUpTo(p, L, |L|, base)[k - |L|]; }
    }
  }

  // ---- the kinds of derived activities ----------------------------------------

  ghost predicate NotMergeable(news: seq<Snap>) {
    forall k :: 0 <= k < |news| ==> news[k].facts.kind !in MERGED_KINDS
  }

  lemma {:induction false} DerivedKinds(recipes: seq<Recipe>, x: Snap, found: seq<seq<Snap>>, base: nat)
    requires forall r :: r in recipes ==> r.kind !in MERGED_KINDS
    ensures NotMergeable(DerivedBy(recipes, x, found, base))
  {
    hide Applies, Pool, LinkTo, MergeLists;
    if recipes != [] {
      DerivedKinds(recipes[..|recipes| - 1], x, found, base);
      assert recipes[|recipes| - 1] in recipes;
    }
  }

  lemma {:induction false} SlotKinds(slots: seq<Slot>, k: nat, x: Snap, found: seq<seq<Snap>>, base: nat)
    requires k <= |slots| == |found|
    requires forall j, r :: 0 <= j < |slots| && r in slots[j].derive ==> r.kind !in MERGED_KINDS
    ensures NotMergeable(AfterSlots(slots, k, x, found, base).derived)
  {
    hide EnrichAll, DerivedBy;
    if k > 0 {
      SlotKinds(slots, k - 1, x, found, base);
      var o := AfterSlots(slots, k - 1, x, found, base);
      DerivedKinds(slots[k - 1].derive, EnrichAll(slots[k - 1], o.item, found[k - 1]), found, base + |o.derived|);
    }
  }

  /** A pass whose recipes make no mergeable kind appends no activity of such a kind. */
  lemma {:induction false} NewUpToKinds(p: Pass, L: seq<Snap>, n: nat, base: nat)
    requires n <= |L| && NewKinds(p)
    ensures NotMergeable(NewUpTo(p, L, n, base))
  {
    hide AfterSlots, Matched;
    if n > 0 {
      NewUpToKinds(p, L, n - 1, base);
      var at := base + |NewUpTo(p, L, n - 1, base)|;
      SlotKinds(p.slots, |p.slots|, L[n - 1], Matched(p, L[n - 1].facts, L), at);
    }
  }

  // ---- summaries ------------------------------------------------------------------

  lemma {:induction false} EnrichKeepsSummary(s: Slot, x: Snap, found: seq<Snap>)
    ensures EnrichAll(s, x, found).body.summary == x.body.summary
  {
    if found != [] { EnrichKeepsSummary(s, x, found[..|found| - 1]); }
  }

  lemma {:induction false} DerivedSummaries(recipes: seq<Recipe>, x: Snap, found: seq<seq<Snap>>, base: nat)
    ensures forall k :: 0 <= k < |DerivedBy(recipes, x, found, base)| ==>
      DerivedBy(recipes, x, found, base)[k].body.summary == x.body.summary
  {
    hide Applies, Pool, LinkTo, MergeLists, EventNotes, NamedById;
    if recipes != [] { DerivedSummaries(recipes[..|recipes| - 1], x, found, base); }
  }

  /** No pass of this form changes a summary, and what it derives has the summary of its item: a
      test that reads a summary may be given as a function of the facts, which hold the id. */
  lemma {:induction false} SummariesStay(slots: seq<Slot>, k: nat, x: Snap, found: seq<seq<Snap>>, base: nat)
    requires k <= |slots| == |found|
    ensures var o := AfterSlots(slots, k, x, found, base);
      && o.item.body.summary == x.body.summary
      && forall n :: 0 <= n < |o.derived| ==> o.derived[n].body.summary == x.body.summary
  {
    hide EnrichAll, DerivedBy;
    if k > 0 {
      SummariesStay(slots, k - 1, x, found, base);
      var o := AfterSlots(slots, k - 1, x, found, base);
      EnrichKeepsSummary(slots[k - 1], o.item, found[k - 1]);
      var item := EnrichAll(slots[k - 1], o.item, found[k - 1]);
      DerivedSummaries(slots[k - 1].derive, item, found, base + |o.derived|);
    }
  }
}
