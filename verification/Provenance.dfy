/** What the dropping passes bring together, said on the recorded facts: which entries may end up in
    one survivor, that every entry does end up in one, which entries cannot both survive, and what
    a survivor records of those it took in. */
module Provenance {
  import opened Text
  import opened Activities
  import opened Greedy
  import opened Dedup
  import opened Growth
  import opened Pipeline

  // ---- on the recorded facts -------------------------------------------------------------

  /** The instants lie at most this far apart. */
  predicate Apart(f: Facts, g: Facts, seconds: int) {
    && f.stamp.GoodStamp? && g.stamp.GoodStamp?
    && var d := (f.stamp.local - f.stamp.offset) - (g.stamp.local - g.stamp.offset);
       -1_000_000 * seconds <= d <= 1_000_000 * seconds
  }

  /** Recorded in the same half minute of the same offset, or with the same unreadable time. */
  predicate SameHalfMinute(f: Facts, g: Facts) {
    if f.stamp.GoodStamp? && g.stamp.GoodStamp?
    then f.stamp.offset == g.stamp.offset && f.stamp.local / 30_000_000 == g.stamp.local / 30_000_000
    else f.stamp == g.stamp
  }

  /** The first key field present, of these six in this order. */
  function Hint(f: Facts): string {
    if Field(f, "process_path") != "" then Field(f, "process_path")
    else if Field(f, "command_line") != "" then Field(f, "command_line")
    else if Field(f, "task_name") != "" then Field(f, "task_name")
    else if Field(f, "service_name") != "" then Field(f, "service_name")
    else if Field(f, "threat_name") != "" then Field(f, "threat_name")
    else Field(f, "destination_ip")
  }

  /** One thing done by one user on one host at about one time. */
  predicate OneDeed(f: Facts, g: Facts) {
    && f.kind == g.kind && f.host == g.host && f.user == g.user && SameHalfMinute(f, g)
    && (Hint(f) != "" && Hint(g) != "" ==> Hint(f) == Hint(g))
  }

  /** One start of a program, seen by prefetch and by something else. */
  predicate OneStart(f: Facts, g: Facts) {
    && f.kind == g.kind && f.kind in {"program_execution", "powershell_execution"}
    && HostText(f) == HostText(g) && Apart(f, g, 600)
    && Lower(Field(f, "process_name")) == Lower(Field(g, "process_name")) != ""
    && (Lower(Field(f, "source")) == "prefetch") != (Lower(Field(g, "source")) == "prefetch")
  }

  /** One access to a file, seen by two sources. */
  predicate OneAccess(f: Facts, g: Facts) {
    && f.kind == g.kind && f.kind in {"opened_file", "script_opened"}
    && (Normalized(HostText(f)) == Normalized(HostText(g)) || Normalized(HostText(f)) == ""
        || Normalized(HostText(g)) == "")
    && Apart(f, g, 1800)
    && Normalized(Field(f, "file_path")) == Normalized(Field(g, "file_path")) != ""
    && Normalized(Field(f, "source")) != Normalized(Field(g, "source"))
  }

  lemma HintIsFirst(f: Facts)
    ensures FieldHint(f) == Hint(f)
  {
    hide Field;
    var names := HINT_FIELDS;
    assert FirstField(f, names[6..]) == "";
    assert FirstField(f, names[5..]) == Field(f, names[5]);
    HintStep(f, names, 4);
    HintStep(f, names, 3);
    HintStep(f, names, 2);
    HintStep(f, names, 1);
    HintStep(f, names, 0);
    assert names[0..] == names;
  }

  lemma HintStep(f: Facts, names: seq<string>, k: nat)
    requires k < |names|
    ensures FirstField(f, names[k..]) == if Field(f, names[k]) != "" then Field(f, names[k])
      else FirstField(f, names[k + 1..])
  {
    assert names[k..][1..] == names[k + 1..];
  }

  lemma DeedOfDuplicates(x: Snap, y: Snap)
    requires Related(SameKey, x, y)
    ensures OneDeed(x.facts, y.facts)
  {
    hide Field, FieldHint, Hint;
    HintIsFirst(x.facts);
    HintIsFirst(y.facts);
  }

  lemma DuplicatesByDeed(x: Snap, y: Snap)
    requires OneDeed(x.facts, y.facts) && Hint(x.facts) == Hint(y.facts) != ""
    ensures Related(SameKey, x, y)
  {
    hide Field, FieldHint, Hint;
    HintIsFirst(x.facts);
    HintIsFirst(y.facts);
  }

  lemma StartIff(x: Snap, y: Snap)
    ensures Related(SameExecution(600), x, y) <==> OneStart(x.facts, y.facts)
  {
    hide Lower, Field;
  }

  lemma AccessIff(x: Snap, y: Snap)
    ensures Related(SameFile(1800), x, y) <==> OneAccess(x.facts, y.facts)
  {
    hide Normalized, Field, HostText;
  }

  // ---- one pass ----------------------------------------------------------------------------

  /** What a survivor holds comes from itself or from an entry related to it. */
  lemma HeldFrom(rule: Rule, L: seq<Snap>, s: Snap, c: Channel, r: string) returns (x: Snap, y: Snap)
    requires s in Merged(rule, L) && r in Carried(c, s.body)
    ensures x in L && x.facts == s.facts && y in L && r in Carried(c, y.body)
    ensures y == x || Related(rule, x, y)
  {
    hide Related, Keeps, Grown, Carried;
    var i := MergedMember(rule, L, |L|, s);
    GrownFacts(rule, L, i, |L|);
    GrownEvidence(rule, L, i, |L|, c, r);
    x, y := L[i], L[i];
    if r !in Carried(c, L[i].body) {
      var j :| 0 <= j < |L| && Absorbs(rule, L, i, j) && r in Carried(c, L[j].body);
      y := L[j];
    }
  }

  /** Every entry has a survivor, itself or one related to it, that holds its evidence. */
  lemma HeldBy(rule: Rule, L: seq<Snap>, y: Snap) returns (x: Snap, s: Snap)
    requires y in L
    ensures x in L && s in Merged(rule, L) && s.facts == x.facts && Holds(s, y)
    ensures y == x || Related(rule, x, y)
  {
    hide Related, Absorb, Grown, Merged;
    var j: nat :| j < |L| && L[j] == y;
    DroppedHasOneAbsorber(rule, L, j);
    var i := j;
    if !Keeps(rule, L, j) { i :| 0 <= i < j && Absorbs(rule, L, i, j); }
    GrownFacts(rule, L, i, |L|);
    SurvivorIn(rule, L, i);
    x, s := L[i], Grown(rule, L, i, |L|);
    forall r | r in Elems(y.body.refs) ensures r in Elems(s.body.refs) { GrownEvidence(rule, L, i, |L|, Refs, r); }
    forall r | r in Elems(y.body.events) ensures r in Elems(s.body.events) { GrownEvidence(rule, L, i, |L|, Events,
        r); }
  }

  lemma SurvivorIn(rule: Rule, L: seq<Snap>, i: nat)
    requires i < |L| && Keeps(rule, L, i)
    ensures Grown(rule, L, i, |L|) in Merged(rule, L)
  {
    SurvivorInMerged(rule, L, |L|, i);
  }

  // ---- deduplication --------------------------------------------------------------------------

  lemma DedupMembers(L: seq<Snap>)
    ensures forall s :: s in Deduplicated(L) <==> s in Merged(SameKey, L)
  {
    hide Merged, StableSort;
    StableSortCorrect(Merged(SameKey, L), SnapTime, "");
    SameMembers(Merged(SameKey, L), Deduplicated(L));
  }

  /** Whatever an entry holds after deduplication was recorded of one deed with it. */
  lemma DedupHolds(L: seq<Snap>, s: Snap, c: Channel, r: string)
    requires s in Deduplicated(L) && r in Carried(c, s.body)
    ensures exists y :: y in L && r in Carried(c, y.body) && OneDeed(s.facts, y.facts)
  {
    hide Merged, Related, OneDeed, Carried;
    DedupMembers(L);
    var x, y := HeldFrom(SameKey, L, s, c, r);
    if y == x { OwnDeed(x); } else { DeedOfDuplicates(x, y); }
  }

  lemma OwnDeed(x: Snap)
    ensures OneDeed(x.facts, x.facts)
  {}

  /** Every entry is represented after deduplication by one of the same deed. */
  lemma DedupRepresents(L: seq<Snap>, y: Snap)
    requires y in L
    ensures exists s :: s in Deduplicated(L) && Holds(s, y) && OneDeed(s.facts, y.facts)
  {
    hide Merged, Related, OneDeed, Holds;
    DedupMembers(L);
    var x, s := HeldBy(SameKey, L, y);
    if y == x { OwnDeed(x); } else { DeedOfDuplicates(x, y); }
  }

  /** Of two records of one deed with the same key field only one survives deduplication. */
  lemma DedupLeavesOne(L: seq<Snap>, s: Snap, t: Snap)
    requires DistinctIds(L) && s in Deduplicated(L) && t in Deduplicated(L) && s != t
    ensures !(OneDeed(s.facts, t.facts) && Hint(s.facts) == Hint(t.facts) != "")
  {
    hide Related, Hint, Grown, Keeps, OneDeed, Deduplicated;
    DedupMembers(L);
    var i := MergedMember(SameKey, L, |L|, s);
    var j := MergedMember(SameKey, L, |L|, t);
    GrownFacts(SameKey, L, i, |L|);
    GrownFacts(SameKey, L, j, |L|);
    if OneDeed(s.facts, t.facts) && Hint(s.facts) == Hint(t.facts) != "" {
      DuplicatesByDeed(L[i], L[j]);
      RelatedSymmetric(SameKey, L[i], L[j]);
      NotBothKept(SameKey, L, i, j);
    }
  }

  lemma NotBothKept(rule: Rule, L: seq<Snap>, i: nat, j: nat)
    requires i < |L| && j < |L| && i != j && Related(rule, L[i], L[j]) && Related(rule, L[j], L[i])
    ensures !(Keeps(rule, L, i) && Keeps(rule, L, j))
  {
    hide Related;
  }

  // ---- executions and file accesses --------------------------------------------------------------

  /** What an execution holds after merging was recorded of the same start. */
  lemma ExecutionHolds(L: seq<Snap>, s: Snap, c: Channel, r: string)
    requires s in Merged(SameExecution(600), L) && r in Carried(c, s.body)
    ensures exists y :: y in L && r in Carried(c, y.body) && (y.facts == s.facts || OneStart(s.facts, y.facts))
  {
    hide Merged, Related, OneStart, Carried;
    var x, y := HeldFrom(SameExecution(600), L, s, c, r);
    StartIff(x, y);
  }

  /** What a file access holds after merging was recorded of the same access. */
  lemma AccessHolds(L: seq<Snap>, s: Snap, c: Channel, r: string)
    requires s in Merged(SameFile(1800), L) && r in Carried(c, s.body)
    ensures exists y :: y in L && r in Carried(c, y.body) && (y.facts == s.facts || OneAccess(s.facts, y.facts))
  {
    hide Merged, Related, OneAccess, Carried;
    var x, y := HeldFrom(SameFile(1800), L, s, c, r);
    AccessIff(x, y);
  }

  /** After the dropping passes no two entries record one start, one file access, or one deed with
      the same key field, and the entries are in order of their time texts. */
  lemma CondensedLeavesOne(L: seq<Snap>, base: nat, k: nat, l: nat)
    requires DistinctIds(L) && Unlinked(L) && Below(L, base) && k < l < |Condensed(L)|
    ensures var s, t := Condensed(L)[k], Condensed(L)[l];
      && !OneStart(s.facts, t.facts) && !OneAccess(s.facts, t.facts)
      && !(OneDeed(s.facts, t.facts) && Hint(s.facts) == Hint(t.facts) != "")
      && !LexLess(StampText(t.facts.stamp), StampText(s.facts.stamp))
  {
    hide Merged, Deduplicated, Related, OneStart, OneAccess, OneDeed, Hint, LexLess, StampText, DistinctIds, Unlinked,
      Below;
    CondensedFacts(L, base);
    var s, t := Condensed(L)[k], Condensed(L)[l];
    assert !Related(SameExecution(600), s, t) && !Related(SameFile(1800), s, t);
    StartIff(s, t);
    AccessIff(s, t);
    var d, e := CondensedFrom(L, k, l);
    DedupApart(L, d, e);
  }

  lemma DedupApart(L: seq<Snap>, d: nat, e: nat)
    requires DistinctIds(L) && d < e < |Deduplicated(L)|
    ensures var s, t := Deduplicated(L)[d], Deduplicated(L)[e];
      && !(OneDeed(s.facts, t.facts) && Hint(s.facts) == Hint(t.facts) != "")
      && !LexLess(StampText(t.facts.stamp), StampText(s.facts.stamp))
  {
    hide Merged, StableSort, OneDeed, Hint, LexLess, StampText;
    StableSortCorrect(Merged(SameKey, L), SnapTime, "");
    MergedKeepsIdentity(SameKey, L);
    DistinctWhenPermuted(Merged(SameKey, L), Deduplicated(L));
    var s, t := Deduplicated(L)[d], Deduplicated(L)[e];
    assert s.facts.id != t.facts.id;
    DedupLeavesOne(L, s, t);
  }

  /** The merging passes keep the order and the facts of what they leave. */
  lemma CondensedFrom(L: seq<Snap>, k: nat, l: nat) returns (d: nat, e: nat)
    requires k < l < |Condensed(L)|
    ensures d < e < |Deduplicated(L)|
    ensures Deduplicated(L)[d].facts == Condensed(L)[k].facts && Deduplicated(L)[e].facts == Condensed(L)[l].facts
  {
    hide Deduplicated, Merged;
    var D := Deduplicated(L);
    var E := Merged(SameExecution(600), D);
    var k', l' := MergedFrom(SameFile(1800), E, k, l);
    d, e := MergedFrom(SameExecution(600), D, k', l');
  }

  lemma MergedFrom(rule: Rule, L: seq<Snap>, k: nat, l: nat) returns (i: nat, j: nat)
    requires k < l < |Merged(rule, L)|
    ensures i < j < |L| && L[i].facts == Merged(rule, L)[k].facts && L[j].facts == Merged(rule, L)[l].facts
  {
    hide Keeps, Grown;
    var at := MergedPositions(rule, L, |L|);
    i, j := at[k], at[l];
    GrownFacts(rule, L, i, |L|);
    GrownFacts(rule, L, j, |L|);
  }

  // ---- what a survivor records of those it took in ---------------------------------------------------

  /** Whether entry `i` has taken anything in among the first `g`. */
  ghost predicate HasTaken(rule: Rule, L: seq<Snap>, i: nat, g: nat)
    requires i < |L| && g <= |L|
  {
    exists j :: 0 <= j < g && Absorbs(rule, L, i, j)
  }

  lemma AbsorbLists(rule: Rule, x: Snap, y: Snap, r: string)
    ensures var z := Absorb(rule, x, y).body;
      && (r in z.reasons <==> r in x.body.reasons || r in y.body.reasons)
      && (r in z.tags <==> r in x.body.tags || r in y.body.tags || (rule.SameExecution? && r == "correlated_execution")
                           || (rule.SameFile? && r == "correlated_file_access"))
  {
    hide SortedSet;
    var z := Absorb(rule, x, y).body;
    var marks := if rule.SameExecution? then ["correlated_execution"]
      else if rule.SameFile? then ["correlated_file_access"] else [];
    assert z.reasons == MergeLists(x.body.reasons, y.body.reasons);
    assert z.tags == MergeLists(x.body.tags, y.body.tags + marks);
    assert r in z.reasons <==> r in Elems(z.reasons);
    assert r in z.tags <==> r in Elems(z.tags);
  }

  /** Reasons are exactly the survivor's and those of what it took in; tags likewise, with the mark
      of the pass if it took anything in. */
  lemma {:induction false} GrownLists(rule: Rule, L: seq<Snap>, i: nat, g: nat, r: string)
    requires i < |L| && g <= |L|
    ensures var b := Grown(rule, L, i, g).body;
      && (r in b.reasons <==>
            r in L[i].body.reasons || exists j :: 0 <= j < g && Absorbs(rule, L, i, j) && r in L[j].body.reasons)
      && (r in b.tags <==>
            || r in L[i].body.tags
            || (exists j :: 0 <= j < g && Absorbs(rule, L, i, j) && r in L[j].body.tags)
            || (HasTaken(rule, L, i, g)
                && ((rule.SameExecution? && r == "correlated_execution")
                    || (rule.SameFile? && r == "correlated_file_access"))))
  {
    hide Absorb, Absorbs;
    if g > 0 {
      GrownLists(rule, L, i, g - 1, r);
      AbsorbLists(rule, Grown(rule, L, i, g - 1), L[g - 1], r);
    }
  }

  /** A merged execution has confidence 0.95, a merged file access 0.9, or the highest among those
      brought together if that is more. */
  lemma {:induction false} GrownConfidence(rule: Rule, L: seq<Snap>, i: nat, g: nat)
    requires i < |L| && g <= |L|
    ensures var c := Grown(rule, L, i, g).body.confidence;
      && L[i].body.confidence <= c
      && (forall j :: 0 <= j < g && Absorbs(rule, L, i, j) ==> L[j].body.confidence <= c)
      && (HasTaken(rule, L, i, g) && rule.SameExecution? ==> 0.95 <= c)
      && (HasTaken(rule, L, i, g) && rule.SameFile? ==> 0.9 <= c)
      && (|| c == L[i].body.confidence
          || (HasTaken(rule, L, i, g) && ((rule.SameExecution? && c == 0.95) || (rule.SameFile? && c == 0.9)))
          || exists j :: 0 <= j < g && Absorbs(rule, L, i, j) && L[j].body.confidence == c)
  {
    hide Absorbs, Absorb;
    if g > 0 {
      GrownConfidence(rule, L, i, g - 1);
      AbsorbHigher(rule, Grown(rule, L, i, g - 1), L[g - 1]);
    }
  }

  lemma AbsorbHigher(rule: Rule, x: Snap, y: Snap)
    ensures var c := Absorb(rule, x, y).body.confidence;
      && x.body.confidence <= c && y.body.confidence <= c
      && (rule.SameExecution? ==> 0.95 <= c) && (rule.SameFile? ==> 0.9 <= c)
      && (c == x.body.confidence || c == y.body.confidence || (rule.SameExecution? && c == 0.95)
          || (rule.SameFile? && c == 0.9))
  {}

  /** The list of sources names the survivor's own and that of the last entry taken in: with more
      than one, the others' sources are not recorded. */
  lemma {:induction false} GrownSources(rule: Rule, L: seq<Snap>, i: nat, g: nat, j: nat)
    requires i < |L| && j < g <= |L| && !rule.SameKey? && Absorbs(rule, L, i, j)
    requires forall k :: j < k < g ==> !Absorbs(rule, L, i, k)
    ensures var own, other := Field(L[i].facts, "source"), Field(L[j].facts, "source");
      Elems(Grown(rule, L, i, g).body.sources) ==
        if rule.SameExecution? then {if own == "" then "unknown" else own, if other == "" then "unknown" else other}
        else {if Normalized(own) == "" then "unknown" else Normalized(own),
              if Normalized(other) == "" then "unknown" else Normalized(other)}
    decreases g
  {
    hide Absorbs, Normalized, SortedSet;
    if j < g - 1 {
      GrownSources(rule, L, i, g - 1, j);
    } else {
      GrownFacts(rule, L, i, j);
      AbsorbSources(rule, Grown(rule, L, i, j), L[j]);
    }
  }

  lemma AbsorbSources(rule: Rule, x: Snap, y: Snap)
    requires !rule.SameKey?
    ensures var own, other := Field(x.facts, "source"), Field(y.facts, "source");
      Elems(Absorb(rule, x, y).body.sources) ==
        if rule.SameExecution? then {if own == "" then "unknown" else own, if other == "" then "unknown" else other}
        else {if Normalized(own) == "" then "unknown" else Normalized(own),
              if Normalized(other) == "" then "unknown" else Normalized(other)}
  {
    hide Normalized, SortedSet, MergeLists;
  }
}
