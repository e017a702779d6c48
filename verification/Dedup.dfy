/** `deduplicate_activities`: exact grouping by key, then a stable sort by timestamp text. */
module Dedup {
  import opened Text
  import opened Activities
  import opened Greedy

  function SnapTime(s: Snap): string {
    StampText(s.facts.stamp)
  }

  function Deduplicated(L: seq<Snap>): seq<Snap> {
    StableSort(Merged(SameKey, L), SnapTime)
  }

  // ---- grouping ----------------------------------------------------------

  ghost predicate Leads(L: seq<Snap>, i: nat) {
    i < |L| && forall h :: 0 <= h < i ==> BucketKey(L[h]) != BucketKey(L[i])
  }

  /** The survivors are the first entries of their keys, and each takes every later entry of its key. */
  lemma {:induction false} SurvivorsLead(L: seq<Snap>, j: nat)
    requires j < |L|
    ensures Keeps(SameKey, L, j) <==> Leads(L, j)
    ensures forall i :: 0 <= i < j ==>
      (Absorbs(SameKey, L, i, j) <==> Leads(L, i) && BucketKey(L[i]) == BucketKey(L[j]))
  {
    hide BucketKey;
    forall i | 0 <= i < j ensures Keeps(SameKey, L, i) <==> Leads(L, i) { SurvivorsLead(L, i); }
    if h :| 0 <= h < j && BucketKey(L[h]) == BucketKey(L[j]) {
      var i := LeaderOf(L, h);
      assert Keeps(SameKey, L, i);
    }
  }

  lemma {:induction false} LeaderOf(L: seq<Snap>, j: nat) returns (i: nat)
    requires j < |L|
    ensures i <= j && Leads(L, i) && BucketKey(L[i]) == BucketKey(L[j])
  {
    hide BucketKey;
    if Leads(L, j) {
      i := j;
    } else {
      var h :| 0 <= h < j && BucketKey(L[h]) == BucketKey(L[j]);
      i := LeaderOf(L, h);
    }
  }

  /** The four lists a duplicate contributes. */
  datatype Listing = RefList | EventList | TagList | ReasonList

  function Listed(w: Listing, b: Body): seq<string> {
    match w
    case RefList => b.refs
    case EventList => b.events
    case TagList => b.tags
    case ReasonList => b.reasons
  }

  lemma AbsorbDuplicate(x: Snap, y: Snap, w: Listing, r: string)
    ensures r in Listed(w, Absorb(SameKey, x, y).body) <==> r in Listed(w, x.body) || r in Listed(w, y.body)
  {
    hide SortedSet;
    var z := Absorb(SameKey, x, y).body;
    var theirs := if w == TagList then y.body.tags + [] else Listed(w, y.body);
    assert Listed(w, z) == MergeLists(Listed(w, x.body), theirs);
    assert r in Listed(w, z) <==> r in Elems(MergeLists(Listed(w, x.body), theirs));
  }

  /** A leader grows by absorbing each later entry of its key. */
  lemma LeaderStep(L: seq<Snap>, i: nat, g: nat)
    requires Leads(L, i) && i < g <= |L|
    ensures Grown(SameKey, L, i, g) ==
      if i == g - 1 then L[i]
      else if BucketKey(L[g - 1]) == BucketKey(L[i]) then Absorb(SameKey, Grown(SameKey, L, i, g - 1), L[g - 1])
      else Grown(SameKey, L, i, g - 1)
  {
    hide BucketKey, Absorb;
    SurvivorsLead(L, g - 1);
    if i == g - 1 { GrownUntouched(SameKey, L, i, 0, g); }
  }

  /** After the first `g` entries a bucket's survivor holds exactly what its members held. */
  lemma {:induction false} BucketHoldsAll(L: seq<Snap>, i: nat, g: nat, w: Listing, r: string)
    requires Leads(L, i) && i < g <= |L|
    ensures r in Listed(w, Grown(SameKey, L, i, g).body) <==>
      exists j :: 0 <= j < g && BucketKey(L[j]) == BucketKey(L[i]) && r in Listed(w, L[j].body)
  {
    hide BucketKey, Absorb, Listed, Grown;
    LeaderStep(L, i, g);
    if i < g - 1 {
      BucketHoldsAll(L, i, g - 1, w, r);
      AbsorbDuplicate(Grown(SameKey, L, i, g - 1), L[g - 1], w, r);
    }
  }

  /** ... and the largest of their confidences: no member `j` has more, some member `m` has as much. */
  lemma {:induction false} BucketConfidence(L: seq<Snap>, i: nat, g: nat, j: nat) returns (m: nat)
    requires Leads(L, i) && i < g <= |L| && j < g && BucketKey(L[j]) == BucketKey(L[i])
    ensures L[j].body.confidence <= Grown(SameKey, L, i, g).body.confidence
    ensures m < g && BucketKey(L[m]) == BucketKey(L[i])
    ensures L[m].body.confidence == Grown(SameKey, L, i, g).body.confidence
  {
    hide BucketKey, Absorb, Grown;
    LeaderStep(L, i, g);
    if i == g - 1 {
      m := i;
    } else {
      m := BucketConfidence(L, i, g - 1, if j < g - 1 then j else i);
      if BucketKey(L[g - 1]) == BucketKey(L[i]) {
        AbsorbConfidence(Grown(SameKey, L, i, g - 1), L[g - 1]);
        if L[m].body.confidence < L[g - 1].body.confidence { m := g - 1; }
      }
    }
  }

  lemma AbsorbConfidence(x: Snap, y: Snap)
    ensures Absorb(SameKey, x, y).body.confidence == MaxReal(x.body.confidence, y.body.confidence)
  {}

  /** The first of the longest summaries among the entries of `L[..g]` with key `k`. */
  function FirstLongest(L: seq<Snap>, k: Key, g: nat): string
    requires g <= |L|
  {
    if g == 0 then ""
    else
      var s := FirstLongest(L, k, g - 1);
      if BucketKey(L[g - 1]) == k && |L[g - 1].body.summary| > |s| then L[g - 1].body.summary else s
  }

  lemma {:induction false} FirstLongestIsLongest(L: seq<Snap>, k: Key, g: nat)
    requires g <= |L|
    ensures forall j :: 0 <= j < g && BucketKey(L[j]) == k ==> |L[j].body.summary| <= |FirstLongest(L, k, g)|
    ensures FirstLongest(L, k, g) == "" ||
      exists m :: 0 <= m < g && BucketKey(L[m]) == k && L[m].body.summary == FirstLongest(L, k, g)
        && (forall j :: 0 <= j < m && BucketKey(L[j]) == k ==> |L[j].body.summary| < |L[m].body.summary|)
  {
    hide BucketKey;
    if g > 0 { FirstLongestIsLongest(L, k, g - 1); }
  }

  lemma {:induction false} BucketSummary(L: seq<Snap>, i: nat, g: nat)
    requires Leads(L, i) && i < g <= |L|
    ensures Grown(SameKey, L, i, g).body.summary == FirstLongest(L, BucketKey(L[i]), g)
  {
    hide BucketKey, WithEvidence, Grown;
    LeaderStep(L, i, g);
    if i == g - 1 {
      NoMemberYet(L, BucketKey(L[i]), i);
    } else {
      BucketSummary(L, i, g - 1);
    }
  }

  lemma {:induction false} NoMemberYet(L: seq<Snap>, k: Key, g: nat)
    requires g <= |L| && forall j :: 0 <= j < g ==> BucketKey(L[j]) != k
    ensures FirstLongest(L, k, g) == ""
  {
    hide BucketKey;
    if g > 0 { NoMemberYet(L, k, g - 1); }
  }

  /** Members of one bucket with a parsed timestamp lie under 30 seconds apart. */
  lemma BucketSpansUnderHalfMinute(x: Snap, y: Snap)
    requires BucketKey(x) == BucketKey(y) && x.facts.stamp.GoodStamp?
    ensures y.facts.stamp.GoodStamp?
    ensures -30_000_000 < Instant(x.facts.stamp) - Instant(y.facts.stamp) < 30_000_000
  {}

  // ---- what the pass keeps -----------------------------------------------

  /** Evidence is conserved; entries come out sorted by timestamp text, equal texts in bucket order. */
  lemma DedupConservesEvidence(L: seq<Snap>, c: Channel, t: string)
    ensures Evidence(c, Deduplicated(L)) == Evidence(c, L)
    ensures SortedByKey(Deduplicated(L), SnapTime)
    ensures WithKey(Deduplicated(L), SnapTime, t) == WithKey(Merged(SameKey, L), SnapTime, t)
    ensures multiset(Deduplicated(L)) == multiset(Merged(SameKey, L))
  {
    hide Merged, Carried;
    MergeConservesEvidence(SameKey, L, c);
    var M := Merged(SameKey, L);
    StableSortCorrect(M, SnapTime, t);
    SameMembers(M, Deduplicated(L));
  }

  lemma SameMembers(M: seq<Snap>, D: seq<Snap>)
    requires multiset(M) == multiset(D)
    ensures |M| == |D|
    ensures forall s :: s in M <==> s in D
    ensures Ids(M) == Ids(D)
    ensures Evidence(Refs, M) == Evidence(Refs, D) && Evidence(Events, M) == Evidence(Events, D)
  {
    assert |M| == |multiset(M)| == |D|;
    forall s ensures s in M <==> s in D {
      assert s in M <==> s in multiset(M);
    }
  }

  // ---- idempotence ---------------------------------------------------------

  ghost predicate NoTwoShareKey(L: seq<Snap>) {
    forall x, y :: x in L && y in L && x != y ==> BucketKey(x) != BucketKey(y)
  }

  lemma SharedKeyIsRelatedPair(L: seq<Snap>)
    requires DistinctIds(L)
    ensures NoneRelated(SameKey, L) <==> NoTwoShareKey(L)
  {
    hide BucketKey;
    if !NoneRelated(SameKey, L) {
      var i, j :| 0 <= i < j < |L| && Related(SameKey, L[i], L[j]);
      assert L[i].facts.id != L[j].facts.id;
    }
    if !NoTwoShareKey(L) {
      var x, y :| x in L && y in L && x != y && BucketKey(x) == BucketKey(y);
      var i :| 0 <= i < |L| && L[i] == x;
      var j :| 0 <= j < |L| && L[j] == y;
      assert Related(SameKey, L[i], L[j]) && Related(SameKey, L[j], L[i]);
      assert i < j || j < i;
    }
  }

  /** The key the survivor of bucket `i` would have on a second run: a summary that served as
      the key is replaced by the bucket's longest one. */
  function KeyAfterwards(L: seq<Snap>, i: nat): Key
    requires i < |L|
  {
    var k := BucketKey(L[i]);
    if FieldHint(L[i].facts) != "" then k else k.(hint := FirstLongest(L, k, |L|))
  }

  /** No two buckets would fall together under the keys their survivors end up with. */
  ghost predicate BucketsStayApart(L: seq<Snap>) {
    forall i, j :: 0 <= i < j < |L| && Leads(L, i) && Leads(L, j) ==> KeyAfterwards(L, i) != KeyAfterwards(L, j)
  }

  lemma SurvivorKey(L: seq<Snap>, i: nat)
    requires Leads(L, i)
    ensures BucketKey(Grown(SameKey, L, i, |L|)) == KeyAfterwards(L, i)
  {
    hide FirstField, Absorb;
    BucketSummary(L, i, |L|);
    GrownFacts(SameKey, L, i, |L|);
  }

  /** Deduplicating twice is deduplicating once exactly when the buckets stay apart. */
  lemma DedupIdempotentIff(L: seq<Snap>)
    requires DistinctIds(L)
    ensures Deduplicated(Deduplicated(L)) == Deduplicated(L) <==> BucketsStayApart(L)
  {
    hide Merged, Related, BucketKey;
    var M := Merged(SameKey, L);
    var D := Deduplicated(L);
    StableSortCorrect(M, SnapTime, "");
    SameMembers(M, D);
    MergedKeepsIdentity(SameKey, L);
    DistinctWhenPermuted(M, D);
    SharedKeyIsRelatedPair(D);
    SharedKeyIsRelatedPair(M);
    ApartIffUnrelated(L);
    StableSortCorrect(D, SnapTime, "");
    MergeFixedIffNoneRelated(SameKey, D);
    if !NoneRelated(SameKey, D) {
      var i, j :| 0 <= i < j < |D| && Related(SameKey, D[i], D[j]);
      RelatedPairLosesOne(SameKey, D, i, j);
      StableSortCorrect(Merged(SameKey, D), SnapTime, "");
      SameMembers(Merged(SameKey, D), Deduplicated(D));
    }
  }

  lemma ApartIffUnrelated(L: seq<Snap>)
    ensures NoneRelated(SameKey, Merged(SameKey, L)) <==> BucketsStayApart(L)
  {
    hide BucketKey, KeyAfterwards, Grown, Keeps;
    var M := Merged(SameKey, L);
    var at := MergedPositions(SameKey, L, |L|);
    forall i: nat | i < |L| ensures Keeps(SameKey, L, i) <==> Leads(L, i) { SurvivorsLead(L, i); }
    forall k | 0 <= k < |M| ensures BucketKey(M[k]) == KeyAfterwards(L, at[k]) { SurvivorKey(L, at[k]); }
    if NoneRelated(SameKey, M) {
      forall i, j | 0 <= i < j < |L| && Leads(L, i) && Leads(L, j) ensures KeyAfterwards(L, i) != KeyAfterwards(L, j) {
        var k, l :| 0 <= k < |M| && 0 <= l < |M| && at[k] == i && at[l] == j;
        assert k < l;
        assert !Related(SameKey, M[k], M[l]);
      }
    }
  }

  lemma DistinctWhenPermuted(M: seq<Snap>, D: seq<Snap>)
    requires DistinctIds(M) && multiset(M) == multiset(D)
    ensures DistinctIds(D)
  {
    SameMembers(M, D);
    forall i, j | 0 <= i < j < |D| ensures D[i].facts.id != D[j].facts.id {
      if D[i] == D[j] {
        assert D == D[..j] + [D[j]] + D[j + 1..];
        assert D[i] in D[..j];
        AtMostOnce(M, D[i]);
      } else {
        assert D[i] in M && D[j] in M;
      }
    }
  }

  lemma {:induction false} AtMostOnce(M: seq<Snap>, s: Snap)
    requires DistinctIds(M)
    ensures multiset(M)[s] <= 1
  {
    if M != [] {
      var front := M[..|M| - 1];
      assert M == front + [M[|M| - 1]];
      AtMostOnce(front, s);
      if M[|M| - 1] == s { assert s !in front; }
    }
  }

  /** With a non-empty key field on every entry the pass is idempotent. */
  lemma DedupIdempotentWithHints(L: seq<Snap>)
    requires DistinctIds(L)
    requires forall s :: s in L ==> FieldHint(s.facts) != ""
    ensures Deduplicated(Deduplicated(L)) == Deduplicated(L)
  {
    hide BucketKey, FieldHint;
    forall i, j | 0 <= i < j < |L| && Leads(L, i) && Leads(L, j) ensures KeyAfterwards(L, i) != KeyAfterwards(L, j) {
      assert L[i] in L && L[j] in L;
    }
    DedupIdempotentIff(L);
  }

  /** Without hints the pass is not idempotent. A summary "b" is the key of the first entry, a
      path "b" the key of the second; merging lengthens the summary to "aa", the key of the third. */
  lemma DedupNotIdempotent() returns (L: seq<Snap>)
    ensures DistinctIds(L) && !BucketsStayApart(L)
    ensures Deduplicated(Deduplicated(L)) != Deduplicated(L)
  {
    var plain := Body([], [], [], [], 0.5, "aa", [], map[], map[]);
    var f := Facts(1, "suspicious_event", NoStamp, None, None, map[]);
    var x := Snap(f, plain.(summary := "b"));
    var y := Snap(f.(id := 2, fields := map["process_path" := "b"]), plain);
    var z := Snap(f.(id := 3), plain);
    L := [x, y, z];
    HintsOfExample(f);
    var low, high := BucketKey(x), BucketKey(z);
    assert BucketKey(y) == low && low.hint == "b" && high.hint == "aa";
    assert Leads(L, 0) && Leads(L, 2);
    assert FirstLongest(L, low, 0) == "" && FirstLongest(L, low, 1) == "b";
    assert FirstLongest(L, low, 2) == "aa" && FirstLongest(L, low, 3) == "aa";
    assert FirstLongest(L, high, 0) == "" && FirstLongest(L, high, 1) == "" && FirstLongest(L, high, 2) == "";
    assert FirstLongest(L, high, 3) == "aa";
    assert KeyAfterwards(L, 0) == KeyAfterwards(L, 2);
    DedupIdempotentIff(L);
  }

  lemma HintsOfExample(f: Facts)
    requires f.fields == map[]
    ensures FieldHint(f) == ""
    ensures FieldHint(f.(fields := map["process_path" := "b"])) == "b"
  {
    assert FirstField(f, HINT_FIELDS[6..]) == "";
    assert FirstField(f, HINT_FIELDS[5..]) == "";
    assert FirstField(f, HINT_FIELDS[4..]) == "" by { assert HINT_FIELDS[4..][1..] == HINT_FIELDS[5..]; }
    assert FirstField(f, HINT_FIELDS[3..]) == "" by { assert HINT_FIELDS[3..][1..] == HINT_FIELDS[4..]; }
    assert FirstField(f, HINT_FIELDS[2..]) == "" by { assert HINT_FIELDS[2..][1..] == HINT_FIELDS[3..]; }
    assert FirstField(f, HINT_FIELDS[1..]) == "" by { assert HINT_FIELDS[1..][1..] == HINT_FIELDS[2..]; }
  }
}
