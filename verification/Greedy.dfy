/** What the dedup pass and the two merging passes compute, stated on snapshots.

    All three walk a list once; an entry that is still present absorbs later entries it is related
    to, and an absorbed entry leaves the list. `Keeps` says who stays, `Absorbs` who takes whom,
    `Grown` what a survivor holds afterwards, and `Merged` is the resulting list. */
module Greedy {
  import opened Text
  import opened Activities

  datatype Rule = SameKey | SameExecution(window: int) | SameFile(window: int)

  // ---- which activities may be merged -----------------------------------

  datatype Rounded = HalfMinute(bucket: int, offset: int) | Verbatim(stamp: Stamp)
  datatype Key = Key(kind: string, rounded: Rounded, host: Option<string>, user: Option<string>, hint: string)

  function RoundedStamp(s: Stamp): Rounded {
    if s.GoodStamp? then HalfMinute(s.local / 30_000_000, s.offset) else Verbatim(s)
  }

  const HINT_FIELDS := ["process_path", "command_line", "task_name", "service_name", "threat_name", "destination_ip"]

  function FirstField(f: Facts, names: seq<string>): string {
    if names == [] then ""
    else if Field(f, names[0]) != "" then Field(f, names[0])
    else FirstField(f, names[1..])
  }

  function FieldHint(f: Facts): string {
    FirstField(f, HINT_FIELDS)
  }

  function BucketKey(s: Snap): Key {
    var hint := FieldHint(s.facts);
    Key(s.facts.kind, RoundedStamp(s.facts.stamp), s.facts.host, s.facts.user,
        if hint != "" then hint else s.body.summary)
  }

  const EXECUTION_KINDS := {"program_execution", "powershell_execution"}
  const FILE_ACCESS_KINDS := {"opened_file", "script_opened"}

  function SourceText(f: Facts): string {
    Lower(Field(f, "source"))
  }

  predicate SameExecutionFacts(f: Facts, g: Facts, window: int) {
    && f.kind in EXECUTION_KINDS && f.kind == g.kind
    && f.stamp.GoodStamp? && g.stamp.GoodStamp?
    && Lower(Field(f, "process_name")) != ""
    && Lower(Field(f, "process_name")) == Lower(Field(g, "process_name"))
    && HostText(f) == HostText(g)
    && (SourceText(f) == "prefetch" || SourceText(g) == "prefetch")
    && SourceText(f) != SourceText(g)
    && Within(g.stamp, f.stamp, window)
  }

  predicate SameFileFacts(f: Facts, g: Facts, window: int) {
    && f.kind in FILE_ACCESS_KINDS && f.kind == g.kind
    && f.stamp.GoodStamp? && g.stamp.GoodStamp?
    && Normalized(Field(f, "file_path")) != ""
    && Normalized(Field(f, "file_path")) == Normalized(Field(g, "file_path"))
    && HostsAgree(f, g)
    && Normalized(Field(f, "source")) != Normalized(Field(g, "source"))
    && Within(g.stamp, f.stamp, window)
  }

  predicate Related(rule: Rule, x: Snap, y: Snap) {
    match rule
    case SameKey => BucketKey(x) == BucketKey(y)
    case SameExecution(window) => SameExecutionFacts(x.facts, y.facts, window)
    case SameFile(window) => SameFileFacts(x.facts, y.facts, window)
  }

  // ---- one merge ---------------------------------------------------------

  function Fill(mine: map<string, string>, theirs: map<string, string>, name: string): map<string, string> {
    if name in theirs && theirs[name] != "" && (name !in mine || mine[name] == "")
    then mine[name := theirs[name]] else mine
  }

  function OrUnknown(s: string): string {
    if s == "" then "unknown" else s
  }

  function Absorb(rule: Rule, x: Snap, y: Snap): Snap {
    var b, c := x.body, y.body;
    var reasons := MergeLists(b.reasons, c.reasons);
    var higher := MaxReal(b.confidence, c.confidence);
    match rule
    case SameKey =>
      var longer := if |c.summary| > |b.summary| then c.summary else b.summary;
      Snap(x.facts, WithEvidence(b, c, []).(reasons := reasons, confidence := higher, summary := longer))
    case SameExecution(_) =>
      var sources := SortedSet([OrUnknown(Field(x.facts, "source")), OrUnknown(Field(y.facts, "source"))]);
      var notes := Fill(Fill(b.notes, c.notes, "run_count"), c.notes, "last_run");
      Snap(x.facts, WithEvidence(b, c, ["correlated_execution"]).(
        reasons := reasons, confidence := MaxReal(higher, 0.95), sources := sources, notes := notes))
    case SameFile(_) =>
      var sources := SortedSet([OrUnknown(Normalized(Field(x.facts, "source"))),
                                OrUnknown(Normalized(Field(y.facts, "source")))]);
      var notes := Fill(Fill(b.notes, c.notes, "source_lnk"), c.notes, "source_jumplist");
      Snap(x.facts, WithEvidence(b, c, ["correlated_file_access"]).(
        reasons := reasons, confidence := MaxReal(higher, 0.9), sources := sources, notes := notes))
  }

  // ---- the whole pass ----------------------------------------------------

  /** Entry `j` stays: no earlier survivor is related to it. */
  predicate Keeps(rule: Rule, L: seq<Snap>, j: nat)
    requires j < |L|
    decreases j
  {
    forall i :: 0 <= i < j && Related(rule, L[i], L[j]) ==> !Keeps(rule, L, i)
  }

  /** Entry `i` is the first survivor related to the later entry `j`. */
  predicate Absorbs(rule: Rule, L: seq<Snap>, i: nat, j: nat)
    requires i < |L| && j < |L|
  {
    && i < j
    && Related(rule, L[i], L[j]) && Keeps(rule, L, i)
    && forall h :: 0 <= h < i && Related(rule, L[h], L[j]) ==> !Keeps(rule, L, h)
  }

  /** Entry `i` after it has absorbed its share of `L[..g]`. */
  function Grown(rule: Rule, L: seq<Snap>, i: nat, g: nat): Snap
    requires i < |L| && g <= |L|
  {
    if g == 0 then L[i]
    else if Absorbs(rule, L, i, g - 1) then Absorb(rule, Grown(rule, L, i, g - 1), L[g - 1])
    else Grown(rule, L, i, g - 1)
  }

  function MergedUpTo(rule: Rule, L: seq<Snap>, n: nat): seq<Snap>
    requires n <= |L|
  {
    if n == 0 then []
    else MergedUpTo(rule, L, n - 1) + if Keeps(rule, L, n - 1) then [Grown(rule, L, n - 1, |L|)] else []
  }

  function Merged(rule: Rule, L: seq<Snap>): seq<Snap> {
    MergedUpTo(rule, L, |L|)
  }

  // ---- who survives ------------------------------------------------------

  /** The file rule and the execution rule are symmetric, and the dedup rule is an equivalence. */
  lemma RelatedSymmetric(rule: Rule, x: Snap, y: Snap)
    ensures Related(rule, x, y) == Related(rule, y, x)
  {}

  /** An entry leaves exactly when it has an absorber, and then it has only one; the absorber
      itself survives and is directly related to it. */
  lemma {:induction false} DroppedHasOneAbsorber(rule: Rule, L: seq<Snap>, j: nat)
    requires j < |L|
    ensures !Keeps(rule, L, j) <==> exists i :: 0 <= i < j && Absorbs(rule, L, i, j)
    ensures forall h, i :: 0 <= h < j && 0 <= i < j && Absorbs(rule, L, h, j) && Absorbs(rule, L, i, j) ==> h == i
  {
    hide Related;
    if !Keeps(rule, L, j) {
      var i :| 0 <= i < j && Related(rule, L[i], L[j]) && Keeps(rule, L, i);
      var least := LeastRelated(rule, L, i, j);
      assert Absorbs(rule, L, least, j);
    }
  }

  lemma {:induction false} LeastRelated(rule: Rule, L: seq<Snap>, i: nat, j: nat) returns (least: nat)
    requires i < j < |L| && Related(rule, L[i], L[j]) && Keeps(rule, L, i)
    ensures least <= i && Absorbs(rule, L, least, j)
  {
    hide Related;
    if Absorbs(rule, L, i, j) {
      least := i;
    } else {
      var h :| 0 <= h < i && Related(rule, L[h], L[j]) && Keeps(rule, L, h);
      least := LeastRelated(rule, L, h, j);
    }
  }

  /** A set of indices that keeps no two related entries and leaves out only entries with an
      earlier related member of the set. */
  ghost predicate IsKernel(rule: Rule, L: seq<Snap>, S: set<nat>) {
    && (forall i :: i in S ==> i < |L|)
    && (forall i, j :: i in S && j in S && i < j ==> !Related(rule, L[i], L[j]))
    && (forall j :: 0 <= j < |L| && j !in S ==> exists i :: i in S && i < j && Related(rule, L[i], L[j]))
  }

  /** The survivors are that set, and there is no other: the outcome of the nested loops depends
      only on the list and the relation. */
  lemma {:induction false} SurvivorsAreTheKernel(rule: Rule, L: seq<Snap>, S: set<nat>)
    ensures IsKernel(rule, L, S) <==> S == set j: nat | 0 <= j < |L| && Keeps(rule, L, j)
  {
    hide Related;
    var K := set j: nat | 0 <= j < |L| && Keeps(rule, L, j);
    if IsKernel(rule, L, S) {
      forall j: nat | j < |L| ensures j in S <==> Keeps(rule, L, j) {
        KernelAgrees(rule, L, S, j);
      }
      assert S == K;
    }
    forall j: nat | j < |L| && j !in K
      ensures exists i :: i in K && i < j && Related(rule, L[i], L[j])
    {
      var i :| 0 <= i < j && Related(rule, L[i], L[j]) && Keeps(rule, L, i);
      assert i in K;
    }
    assert IsKernel(rule, L, K);
  }

  lemma {:induction false} KernelAgrees(rule: Rule, L: seq<Snap>, S: set<nat>, j: nat)
    requires IsKernel(rule, L, S) && j < |L|
    ensures j in S <==> Keeps(rule, L, j)
  {
    hide Related;
    forall i: nat | i < j ensures i in S <==> Keeps(rule, L, i) {
      KernelAgrees(rule, L, S, i);
    }
  }

  // ---- what the survivors hold -------------------------------------------

  lemma {:induction false} GrownFacts(rule: Rule, L: seq<Snap>, i: nat, g: nat)
    requires i < |L| && g <= |L|
    ensures Grown(rule, L, i, g).facts == L[i].facts
    ensures Grown(rule, L, i, g).body.links == L[i].body.links
  {
    if g > 0 { GrownFacts(rule, L, i, g - 1); }
  }

  lemma AbsorbEvidence(rule: Rule, x: Snap, y: Snap, c: Channel, r: string)
    ensures r in Carried(c, Absorb(rule, x, y).body) <==> r in Carried(c, x.body) || r in Carried(c, y.body)
  {
    hide SortedSet;
    var z := Absorb(rule, x, y);
    assert Carried(c, z.body) == MergeLists(Carried(c, x.body), Carried(c, y.body));
    assert r in Carried(c, z.body) <==> r in Elems(MergeLists(Carried(c, x.body), Carried(c, y.body)));
  }

  /** A survivor's evidence is exactly its own plus that of the entries it absorbed. */
  lemma {:induction false} GrownEvidence(rule: Rule, L: seq<Snap>, i: nat, g: nat, c: Channel, r: string)
    requires i < |L| && g <= |L|
    ensures r in Carried(c, Grown(rule, L, i, g).body) <==>
      || r in Carried(c, L[i].body)
      || exists j :: 0 <= j < g && Absorbs(rule, L, i, j) && r in Carried(c, L[j].body)
  {
    hide Absorb, Absorbs, Carried;
    if g > 0 {
      GrownEvidence(rule, L, i, g - 1, c, r);
      AbsorbEvidence(rule, Grown(rule, L, i, g - 1), L[g - 1], c, r);
    }
  }

  /** An entry that absorbs nothing is left as it was. */
  lemma {:induction false} GrownUntouched(rule: Rule, L: seq<Snap>, i: nat, g: nat, h: nat)
    requires i < |L| && g <= h <= |L|
    requires forall j :: g <= j < h ==> !Absorbs(rule, L, i, j)
    ensures Grown(rule, L, i, h) == Grown(rule, L, i, g)
    decreases h
  {
    hide Absorb, Absorbs;
    if g < h { GrownUntouched(rule, L, i, g, h - 1); }
  }

  lemma {:induction false} MergedMember(rule: Rule, L: seq<Snap>, n: nat, s: Snap) returns (i: nat)
    requires n <= |L| && s in MergedUpTo(rule, L, n)
    ensures i < n && Keeps(rule, L, i) && s == Grown(rule, L, i, |L|)
  {
    hide Keeps, Grown;
    if s in MergedUpTo(rule, L, n - 1) {
      i := MergedMember(rule, L, n - 1, s);
    } else {
      i := n - 1;
    }
  }

  lemma {:induction false} SurvivorInMerged(rule: Rule, L: seq<Snap>, n: nat, i: nat)
    requires i < n <= |L| && Keeps(rule, L, i)
    ensures Grown(rule, L, i, |L|) in MergedUpTo(rule, L, n)
  {
    hide Keeps, Grown;
    if i < n - 1 { SurvivorInMerged(rule, L, n - 1, i); }
  }

  // ---- nothing is lost, nothing is invented --------------------------------

  lemma EvidenceKept(rule: Rule, L: seq<Snap>, c: Channel, j: nat, r: string)
    requires j < |L| && r in Carried(c, L[j].body)
    ensures r in Evidence(c, Merged(rule, L))
  {
    hide Related, Absorb, Grown;
    DroppedHasOneAbsorber(rule, L, j);
    var i := j;
    if !Keeps(rule, L, j) { i :| 0 <= i < j && Absorbs(rule, L, i, j); }
    GrownEvidence(rule, L, i, |L|, c, r);
    SurvivorInMerged(rule, L, |L|, i);
  }

  lemma EvidenceNotInvented(rule: Rule, L: seq<Snap>, c: Channel, s: Snap, r: string)
    requires s in Merged(rule, L) && r in Carried(c, s.body)
    ensures r in Evidence(c, L)
  {
    hide Keeps, Grown;
    var i := MergedMember(rule, L, |L|, s);
    GrownEvidence(rule, L, i, |L|, c, r);
  }

  /** The pass drops entries but not evidence: references and events over the whole list are
      the same before and after. */
  lemma MergeConservesEvidence(rule: Rule, L: seq<Snap>, c: Channel)
    ensures Evidence(c, Merged(rule, L)) == Evidence(c, L)
  {
    forall r | r in Evidence(c, L) ensures r in Evidence(c, Merged(rule, L)) {
      var s :| s in L && r in Carried(c, s.body);
      var j :| 0 <= j < |L| && L[j] == s;
      EvidenceKept(rule, L, c, j, r);
    }
    forall r | r in Evidence(c, Merged(rule, L)) ensures r in Evidence(c, L) {
      var s :| s in Merged(rule, L) && r in Carried(c, s.body);
      EvidenceNotInvented(rule, L, c, s, r);
    }
  }

  // ---- the result is maximal and stable ------------------------------------

  ghost predicate NoneRelated(rule: Rule, L: seq<Snap>) {
    forall i, j :: 0 <= i < j < |L| ==> !Related(rule, L[i], L[j])
  }

  /** The positions below `n` that survive, in increasing order. */
  function Survivors(rule: Rule, L: seq<Snap>, n: nat): seq<nat>
    requires n <= |L|
  {
    if n == 0 then [] else Survivors(rule, L, n - 1) + if Keeps(rule, L, n - 1) then [n - 1] else []
  }

  /** The original position of each entry of the result. */
  lemma {:induction false} MergedPositions(rule: Rule, L: seq<Snap>, n: nat) returns (at: seq<nat>)
    requires n <= |L|
    ensures at == Survivors(rule, L, n) && |at| == |MergedUpTo(rule, L, n)|
    ensures forall k :: 0 <= k < |at| ==>
      at[k] < n && Keeps(rule, L, at[k]) && MergedUpTo(rule, L, n)[k] == Grown(rule, L, at[k], |L|)
    ensures forall k, l :: 0 <= k < l < |at| ==> at[k] < at[l]
    ensures forall j :: 0 <= j < n && Keeps(rule, L, j) ==> j in at
  {
    hide Keeps, Grown;
    at := [];
    if n > 0 {
      at := MergedPositions(rule, L, n - 1);
      if Keeps(rule, L, n - 1) { at := at + [n - 1]; }
    }
  }

  lemma {:induction false} MergedShorter(rule: Rule, L: seq<Snap>, n: nat, j: nat)
    requires n <= |L| && j < |L|
    ensures |MergedUpTo(rule, L, n)| <= n
    ensures j < n && !Keeps(rule, L, j) ==> |MergedUpTo(rule, L, n)| < n
  {
    hide Keeps, Grown;
    if n > 0 { MergedShorter(rule, L, n - 1, j); }
  }

  /** No two survivors are related. For the dedup rule this speaks of the keys they had on entry. */
  lemma MergedIsIndependent(rule: Rule, L: seq<Snap>)
    ensures !rule.SameKey? ==> NoneRelated(rule, Merged(rule, L))
  {
    if !rule.SameKey? {
      var M := Merged(rule, L);
      var at := MergedPositions(rule, L, |L|);
      forall k, l | 0 <= k < l < |M| ensures !Related(rule, M[k], M[l]) {
        GrownFacts(rule, L, at[k], |L|);
        GrownFacts(rule, L, at[l], |L|);
        assert !Related(rule, L[at[k]], L[at[l]]);
      }
    }
  }

  /** Merging under one rule leaves no pair related under another if there was none. */
  lemma MergeKeepsUnrelated(rule: Rule, other: Rule, L: seq<Snap>)
    requires !other.SameKey? && NoneRelated(other, L)
    ensures NoneRelated(other, Merged(rule, L))
  {
    var M := Merged(rule, L);
    var at := MergedPositions(rule, L, |L|);
    forall k, l | 0 <= k < l < |M| ensures !Related(other, M[k], M[l]) {
      GrownFacts(rule, L, at[k], |L|);
      GrownFacts(rule, L, at[l], |L|);
      assert !Related(other, L[at[k]], L[at[l]]);
    }
  }

  /** A pass changes nothing if and only if no two entries of its input are related. */
  lemma MergeFixedIffNoneRelated(rule: Rule, L: seq<Snap>)
    ensures Merged(rule, L) == L <==> NoneRelated(rule, L)
  {
    hide Related, Keeps;
    if NoneRelated(rule, L) {
      NothingToMerge(rule, L, |L|);
    } else {
      var i, j :| 0 <= i < j < |L| && Related(rule, L[i], L[j]);
      RelatedPairLosesOne(rule, L, i, j);
    }
  }

  lemma RelatedPairLosesOne(rule: Rule, L: seq<Snap>, i: nat, j: nat)
    requires i < j < |L| && Related(rule, L[i], L[j])
    ensures |Merged(rule, L)| < |L|
  {
    hide Related, Absorb;
    if Keeps(rule, L, i) {
      assert !Keeps(rule, L, j);
      MergedShorter(rule, L, |L|, j);
    } else {
      MergedShorter(rule, L, |L|, i);
    }
  }

  lemma {:induction false} NothingToMerge(rule: Rule, L: seq<Snap>, n: nat)
    requires NoneRelated(rule, L) && n <= |L|
    ensures MergedUpTo(rule, L, n) == L[..n]
  {
    hide Related, Absorb;
    if n > 0 {
      NothingToMerge(rule, L, n - 1);
      GrownUntouched(rule, L, n - 1, 0, |L|);
      assert L[..n] == L[..n - 1] + [L[n - 1]];
    }
  }

  /** A second run of either merging pass changes nothing, although the file rule is not transitive. */
  lemma SecondMergeChangesNothing(rule: Rule, L: seq<Snap>)
    requires !rule.SameKey?
    ensures Merged(rule, Merged(rule, L)) == Merged(rule, L)
  {
    MergedIsIndependent(rule, L);
    MergeFixedIffNoneRelated(rule, Merged(rule, L));
  }

  /** Ids stay distinct and no new id appears; entries keep the links they had. */
  lemma MergedKeepsIdentity(rule: Rule, L: seq<Snap>)
    ensures Ids(Merged(rule, L)) <= Ids(L)
    ensures DistinctIds(L) ==> DistinctIds(Merged(rule, L))
    ensures (forall s :: s in L ==> s.body.links == map[]) ==> forall s :: s in Merged(rule, L) ==>
      s.body.links == map[]
  {
    hide Keeps, Grown;
    var M := Merged(rule, L);
    var at := MergedPositions(rule, L, |L|);
    forall k | 0 <= k < |M| ensures M[k].facts == L[at[k]].facts && M[k].body.links == L[at[k]].body.links {
      GrownFacts(rule, L, at[k], |L|);
    }
    forall id | id in Ids(M) ensures id in Ids(L) {
      var s :| s in M && s.facts.id == id;
      var k :| 0 <= k < |M| && M[k] == s;
      assert L[at[k]] in L;
    }
  }

  lemma OneLetter(c: char)
    requires 'a' <= c <= 'z'
    ensures Normalized([c]) == [c]
  {
    assert TrimLeft([c]) == [c] && TrimRight([c]) == [c];
  }
}
