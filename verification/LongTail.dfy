/** Deferring the artifacts that keep an ingest from finishing, and finalising the run. */
module LongTail {
  import opened Text

  datatype Row = Row(id: string, sourcePath: string, status: string, records: int)

  /** What the worker reported about an artifact it is still reading. */
  datatype Progress = Progress(sourcePath: string, recordsIndexed: int)

  const PARTIAL := "partial_indexed_deferred"
  const DEFERRED := "deferred_long_tail"
  const OPEN_STATES := {"processing", "queued_parallel"}
  const FAILED_STATES := {"failed", "failed_timeout", "failed_aborted", PARTIAL, DEFERRED}

  function DeferredStatus(records: int): string {
    if records > 0 then PARTIAL else DEFERRED
  }

  /** Not terminal: the status, stripped and lower-cased, is one of the open states. */
  predicate IsOpen(status: string) {
    Normalized(status) in OPEN_STATES
  }

  ghost predicate DistinctIds(rows: seq<Row>) {
    forall i, j :: 0 <= i < j < |rows| ==> rows[i].id != rows[j].id
  }

  // ---- the safe part ------------------------------------------------------------------

  predicate IsRunning(r: Row, running: set<string>) {
    r.sourcePath != "" && r.sourcePath in running
  }

  predicate DefersNow(r: Row, ids: set<string>, running: set<string>) {
    r.id in ids && !IsRunning(r, running) && r.status in OPEN_STATES
  }

  function SafelyDeferred(r: Row, ids: set<string>, running: set<string>): Row {
    if DefersNow(r, ids, running) then r.(status := DeferredStatus(r.records)) else r
  }

  /** The ids, in row order, of the selected rows that are deferred (`now`) or only noted. */
  function Listed(rows: seq<Row>, ids: set<string>, running: set<string>, now: bool): seq<string> {
    if rows == [] then []
    else
      var r := rows[0];
      (if r.id in ids && DefersNow(r, ids, running) == now then [r.id] else []) + Listed(rows[1..], ids, running, now)
  }

  // ---- finalisation ----------------------------------------------------------------------

  /** The last report about a source path. */
  function Reported(tail: seq<Progress>, path: string): int {
    if tail == [] then 0
    else if tail[|tail| - 1].sourcePath == path then tail[|tail| - 1].recordsIndexed
    else Reported(tail[..|tail| - 1], path)
  }

  function Max(a: int, b: int): int {
    if a < b then b else a
  }

  function Finalised(r: Row, ids: set<string>, tail: seq<Progress>): Row {
    if r.id !in ids then r
    else
      var records := Max(Reported(tail, r.sourcePath), r.records);
      r.(records := records, status := DeferredStatus(records))
  }

  function SafeRows(rows: seq<Row>, ids: set<string>, running: set<string>): (r: seq<Row>)
    ensures |r| == |rows| && forall k :: 0 <= k < |rows| ==> r[k] == SafelyDeferred(rows[k], ids, running)
  {
    seq(|rows|, k requires 0 <= k < |rows| => SafelyDeferred(rows[k], ids, running))
  }

  function FinalRows(rows: seq<Row>, ids: set<string>, tail: seq<Progress>): (r: seq<Row>)
    ensures |r| == |rows| && forall k :: 0 <= k < |rows| ==> r[k] == Finalised(rows[k], ids, tail)
  {
    seq(|rows|, k requires 0 <= k < |rows| => Finalised(rows[k], ids, tail))
  }

  function CountIn(rows: seq<Row>, states: set<string>): nat {
    if rows == [] then 0
    else CountIn(rows[..|rows| - 1], states) + if rows[|rows| - 1].status in states then 1 else 0
  }

  /** Whether the selection covers everything that is still open, and something is. */
  predicate OnlyTailRemains(rows: seq<Row>, ids: set<string>) {
    && (exists k :: 0 <= k < |rows| && IsOpen(rows[k].status))
    && (forall k :: 0 <= k < |rows| && IsOpen(rows[k].status) ==> rows[k].id in ids)
  }

  // ---- what holds ------------------------------------------------------------------------

  lemma DeferredIsClosed(records: int)
    ensures !IsOpen(DeferredStatus(records))
  {
    hide IsOpen, Lower;
    assert PARTIAL[0] == 'p' && PARTIAL[|PARTIAL| - 1] == 'd' && |PARTIAL| == 24;
    assert DEFERRED[0] == 'd' && DEFERRED[|DEFERRED| - 1] == 'l' && |DEFERRED| == 18;
    NothingToTrim(DeferredStatus(records));
    OpenStatesAreShort(DeferredStatus(records));
  }

  lemma NothingToTrim(s: string)
    requires s != "" && !Blank(s[0]) && !Blank(s[|s| - 1])
    ensures Trim(s) == s
  {}

  lemma OpenStatesAreShort(status: string)
    ensures IsOpen(status) ==> |Trim(status)| <= 15
  {
    hide Trim, Lower;
    assert |Normalized(status)| == |Trim(status)|;
    assert |"processing"| == 10 && |"queued_parallel"| == 15;
  }

  /** Before finalisation: the two lists partition the selected rows, the deferred ones are exactly
      those that were open and not running; a running row is left as it is. */
  lemma {:induction false} ListsPartition(rows: seq<Row>, ids: set<string>, running: set<string>, id: string)
    requires DistinctIds(rows)
    ensures id in Listed(rows, ids, running, true)
      <==> exists k :: 0 <= k < |rows| && rows[k].id == id && DefersNow(rows[k], ids, running)
    ensures id in Listed(rows, ids, running, false) <==>
      exists k :: 0 <= k < |rows| && rows[k].id == id && id in ids && !DefersNow(rows[k], ids, running)
    ensures !(id in Listed(rows, ids, running, true) && id in Listed(rows, ids, running, false))
    ensures forall k :: 0 <= k < |rows| && rows[k].id == id && IsRunning(rows[k], running) ==>
      id !in Listed(rows, ids, running, true) && SafeRows(rows, ids, running)[k] == rows[k]
    ensures |Listed(rows, ids, running, true)| + |Listed(rows, ids, running, false)| == Selected(rows, ids)
  {
    if rows != [] {
      var rest := rows[1..];
      assert forall k :: 0 <= k < |rest| ==> rest[k] == rows[k + 1];
      ListsPartition(rest, ids, running, id);
      assert forall k :: 1 <= k < |rows| ==> rows[k] == rest[k - 1];
    }
  }

  function Selected(rows: seq<Row>, ids: set<string>): nat {
    if rows == [] then 0 else (if rows[0].id in ids then 1 else 0) + Selected(rows[1..], ids)
  }

  /** The last report on this path. */
  ghost predicate LastReport(tail: seq<Progress>, path: string, n: int) {
    0 <= n < |tail| && tail[n].sourcePath == path && forall m :: n < m < |tail| ==> tail[m].sourcePath != path
  }

  lemma {:induction false} ReportedIsLast(tail: seq<Progress>, path: string)
    ensures forall n :: LastReport(tail, path, n) ==> Reported(tail, path) == tail[n].recordsIndexed
    ensures Reported(tail, path) == 0 || exists n :: LastReport(tail, path, n)
  {
    if tail != [] {
      var front := tail[..|tail| - 1];
      ReportedIsLast(front, path);
      if tail[|tail| - 1].sourcePath == path {
        assert LastReport(tail, path, |tail| - 1);
      } else {
        assert forall n :: LastReport(tail, path, n) ==> LastReport(front, path, n);
        assert forall n :: LastReport(front, path, n) ==> LastReport(tail, path, n);
      }
    }
  }

  /** When the endpoint finalises, nothing of the evidence remains processing or queued, no record
      count has gone down, a higher count that the worker reported last is taken over, and every
      selected artifact is partially indexed exactly when its count is positive. */
  lemma FinalisationIsSafe(rows: seq<Row>, ids: set<string>, running: set<string>, tail: seq<Progress>, k: nat)
    requires k < |rows| && OnlyTailRemains(SafeRows(rows, ids, running), ids)
    ensures var r := FinalRows(SafeRows(rows, ids, running), ids, tail)[k];
      && !IsOpen(r.status)
      && r.records >= rows[k].records && r.id == rows[k].id
      && (rows[k].id in ids ==>
            && (forall n :: LastReport(tail, rows[k].sourcePath, n) ==> r.records >= tail[n].recordsIndexed)
            && (|| r.records == rows[k].records || r.records == 0
                || exists n :: LastReport(tail, rows[k].sourcePath, n) && r.records == tail[n].recordsIndexed))
      && (rows[k].id in ids ==> r.status in {PARTIAL, DEFERRED} && (r.status == PARTIAL <==> r.records > 0))
      && (rows[k].id !in ids ==> r == rows[k])
  {
    hide IsOpen, Reported;
    var safe := SafeRows(rows, ids, running)[k];
    assert PARTIAL[0] != DEFERRED[0];
    assert safe.id in ids || !IsOpen(safe.status);
    DeferredIsClosed(Finalised(safe, ids, tail).records);
    ReportedIsLast(tail, safe.sourcePath);
  }

  // ---- as it runs --------------------------------------------------------------------------

  class Artifact {
    const id: string
    const sourcePath: string
    var status: string
    var recordCount: int

    constructor (r: Row)
      ensures View() == r
    {
      id, sourcePath, status, recordCount := r.id, r.sourcePath, r.status, r.records;
    }

    function View(): Row
      reads this
    {
      Row(id, sourcePath, status, recordCount)
    }
  }

  ghost function Views(rows: seq<Artifact>): (r: seq<Row>)
    reads rows
    ensures |r| == |rows| && forall k :: 0 <= k < |rows| ==> r[k] == rows[k].View()
  {
    seq(|rows|, k requires 0 <= k < |rows| reads rows => rows[k].View())
  }

  ghost predicate DistinctRows(rows: seq<Artifact>) {
    forall i, j :: 0 <= i < j < |rows| ==> rows[i].id != rows[j].id
  }

  lemma ListedStep(before: seq<Row>, n: nat, ids: set<string>, running: set<string>, now: bool)
    requires n < |before|
    ensures Listed(before[n..], ids, running, now) ==
      (if before[n].id in ids && DefersNow(before[n], ids, running) == now then [before[n].id] else [])
      + Listed(before[n + 1..], ids, running, now)
  {
    assert before[n..][1..] == before[n + 1..];
  }

  /** `_apply_safe_long_tail_defer`. */
  method ApplySafeDefer(rows: seq<Artifact>, ids: set<string>, running: set<string>)
    returns (deferredNow: seq<string>, requestOnly: seq<string>)
    requires DistinctRows(rows)
    modifies rows
    ensures Views(rows) == SafeRows(old(Views(rows)), ids, running)
    ensures deferredNow == Listed(old(Views(rows)), ids, running, true)
    ensures requestOnly == Listed(old(Views(rows)), ids, running, false)
  {
    hide DeferredStatus, Listed;
    ghost var before := Views(rows);
    deferredNow, requestOnly := [], [];
    for n := 0 to |rows|
      invariant forall k :: 0 <= k < |rows| ==>
        rows[k].View() == if k < n then SafelyDeferred(before[k], ids, running) else before[k]
      invariant deferredNow + Listed(before[n..], ids, running, true) == Listed(before, ids, running, true)
      invariant requestOnly + Listed(before[n..], ids, running, false) == Listed(before, ids, running, false)
    {
      var artifact := rows[n];
      ListedStep(before, n, ids, running, true);
      ListedStep(before, n, ids, running, false);
      if artifact.id in ids {
        if artifact.sourcePath != "" && artifact.sourcePath in running {
          requestOnly := requestOnly + [artifact.id];
        } else if artifact.status in OPEN_STATES {
          artifact.status := DeferredStatus(artifact.recordCount);
          deferredNow := deferredNow + [artifact.id];
        } else {
          requestOnly := requestOnly + [artifact.id];
        }
      }
    }
    NothingListed(ids, running);
    assert before[|rows|..] == [];
  }

  lemma NothingListed(ids: set<string>, running: set<string>)
    ensures Listed([], ids, running, true) == [] && Listed([], ids, running, false) == []
  {}

  /** The artifact loop of `_finalize_long_tail_deferred_run` and the counts it reports. */
  method FinaliseRun(rows: seq<Artifact>, ids: set<string>, tail: seq<Progress>) returns (completed: nat, failed: nat)
    requires DistinctRows(rows)
    modifies rows
    ensures Views(rows) == FinalRows(old(Views(rows)), ids, tail)
    ensures completed == CountIn(Views(rows), {"completed"}) && failed == CountIn(Views(rows), FAILED_STATES)
  {
    hide DeferredStatus, Reported;
    ghost var before := Views(rows);
    for n := 0 to |rows|
      invariant forall k :: 0 <= k < |rows| ==>
        rows[k].View() == if k < n then Finalised(before[k], ids, tail) else before[k]
    {
      var artifact := rows[n];
      if artifact.id in ids {
        var records := Max(Reported(tail, artifact.sourcePath), artifact.recordCount);
        artifact.recordCount := records;
        artifact.status := DeferredStatus(records);
      }
    }
    completed := CountStatus(rows, {"completed"});
    failed := CountStatus(rows, FAILED_STATES);
  }

  method CountStatus(rows: seq<Artifact>, states: set<string>) returns (count: nat)
    ensures count == CountIn(Views(rows), states)
  {
    count := 0;
    for n := 0 to |rows|
      invariant count == CountIn(Views(rows)[..n], states)
    {
      assert Views(rows)[..n + 1][..n] == Views(rows)[..n];
      if rows[n].status in states { count := count + 1; }
    }
    assert Views(rows)[..|rows|] == Views(rows);
  }

  datatype Reply =
    | NothingEligible
    | Finalised'(ids: seq<string>)
    | Answered(deferredNow: seq<string>, requestOnly: seq<string>)

  /** The requested ids, or the eligible ones of the report when none were requested. */
  function Chosen(requested: seq<string>, eligible: seq<string>): seq<string> {
    if requested != [] then requested else eligible
  }

  function PathsOf(tail: seq<Progress>): set<string> {
    set p | p in tail :: p.sourcePath
  }

  /** What `defer_long_tail_artifacts` answers for a non-empty selection. */
  ghost function Outcome(before: seq<Row>, chosen: seq<string>, tail: seq<Progress>): (Reply, seq<Row>) {
    var ids := Elems(chosen);
    var safe := SafeRows(before, ids, PathsOf(tail));
    if OnlyTailRemains(safe, ids) then (Finalised'(chosen), FinalRows(safe, ids, tail))
    else (Answered(Listed(before, ids, PathsOf(tail), true), Listed(before, ids, PathsOf(tail), false)), safe)
  }

  /** A row that is worked on no longer and can be deferred at once. */
  predicate Deferrable(r: Row, chosen: seq<string>, tail: seq<Progress>) {
    && r.id in chosen && (r.status == "processing" || r.status == "queued_parallel")
    && (r.sourcePath == "" || forall n :: 0 <= n < |tail| ==> tail[n].sourcePath != r.sourcePath)
  }

  /** What an answer that does not finalise says of each row: a deferrable one is listed as deferred
      now and gets its status by its count, any other chosen one is listed as noted, and apart from
      the deferrable ones every row stays as it was. */
  lemma AnswersTruthfully(before: seq<Row>, chosen: seq<string>, tail: seq<Progress>, k: nat)
    requires DistinctIds(before) && k < |before| && Outcome(before, chosen, tail).0.Answered?
    ensures var (reply, after) := Outcome(before, chosen, tail);
      && |after| == |before|
      && (before[k].id in reply.deferredNow <==> Deferrable(before[k], chosen, tail))
      && (before[k].id in reply.requestOnly <==> before[k].id in chosen && !Deferrable(before[k], chosen, tail))
      && after[k] == if !Deferrable(before[k], chosen, tail) then before[k]
                     else before[k].(status := if before[k].records > 0 then "partial_indexed_deferred"
                                     else "deferred_long_tail")
  {
    hide IsOpen, Listed;
    ListsPartition(before, Elems(chosen), PathsOf(tail), before[k].id);
    OneRow(before, k);
  }

  lemma OneRow(rows: seq<Row>, k: nat)
    requires DistinctIds(rows) && k < |rows|
    ensures forall j :: 0 <= j < |rows| && rows[j].id == rows[k].id ==> j == k
  {}

  /** `defer_long_tail_artifacts`, with the paths and counts the worker last reported. */
  method DeferLongTail(rows: seq<Artifact>, requested: seq<string>, eligible: seq<string>, tail: seq<Progress>)
    returns (reply: Reply)
    requires DistinctRows(rows)
    modifies rows
    ensures var chosen := Chosen(requested, eligible);
      (reply, Views(rows)) ==
        if chosen == [] then (NothingEligible, old(Views(rows))) else Outcome(old(Views(rows)), chosen, tail)
    ensures reply.Finalised'? ==> forall k :: 0 <= k < |rows| ==>
      !IsOpen(rows[k].status) && rows[k].recordCount >= old(rows[k].recordCount)
  {
    hide IsOpen, Listed, SafelyDeferred, Finalised, SafeRows, FinalRows, OnlyTailRemains;
    ghost var before := Views(rows);
    var chosen := Chosen(requested, eligible);
    if chosen == [] { return NothingEligible; }
    var ids := Elems(chosen);
    var deferredNow, requestOnly := ApplySafeDefer(rows, ids, PathsOf(tail));
    ghost var safe := Views(rows);
    var only := StillOpen(rows, ids);
    if only {
      var completed, failed := FinaliseRun(rows, ids, tail);
      forall k | 0 <= k < |rows| ensures !IsOpen(rows[k].status) && rows[k].recordCount >= before[k].records {
        FinalisationIsSafe(before, ids, PathsOf(tail), tail, k);
        assert rows[k].View() == FinalRows(safe, ids, tail)[k];
      }
      return Finalised'(chosen);
    }
    reply := Answered(deferredNow, requestOnly);
  }

  /** Whether some artifact is open and all open ones are selected. */
  method StillOpen(rows: seq<Artifact>, ids: set<string>) returns (only: bool)
    ensures only == OnlyTailRemains(Views(rows), ids)
  {
    hide IsOpen;
    var any, covered := false, true;
    for n := 0 to |rows|
      invariant any <==> exists k :: 0 <= k < n && IsOpen(Views(rows)[k].status)
      invariant covered <==> forall k :: 0 <= k < n && IsOpen(Views(rows)[k].status) ==> Views(rows)[k].id in ids
    {
      assert Views(rows)[n] == rows[n].View();
      if IsOpen(rows[n].status) {
        any := true;
        if rows[n].id !in ids { covered := false; }
      }
    }
    only := any && covered;
  }
}
