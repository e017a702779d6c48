/** `_recompute_evidence_status`: rewriting an evidence record from its document count and its
    problem report. */
module EvidenceStatus {
  import opened Text

  datatype IngestStatus = Pending | Processing | Completed | CompletedWithErrors | Failed

  function StatusText(s: IngestStatus): string {
    match s
    case Pending => "pending"
    case Processing => "processing"
    case Completed => "completed"
    case CompletedWithErrors => "completed_with_errors"
    case Failed => "failed"
  }

  /** An error-log dictionary; it is empty when no key is present. */
  datatype ErrorLog = ErrorLog(fatalType: Option<string>, errors: Option<seq<string>>, historical: Option<seq<string>>,
                               others: set<string>)

  predicate IsEmpty(e: ErrorLog) {
    e == ErrorLog(None, None, None, {})
  }

  datatype Summary = Summary(skippedEmpty: nat, indexedWithWarning: nat, recovered: nat, dataLossExpected: nat)
  datatype Report = Report(summary: Summary, realFailures: bool)

  datatype RunRow =
    | Row(runId: string, status: string, phase: string, progress: nat, lastError: Option<string>, artifactsFailed: nat,
          failedArtifacts: nat, recovered: nat, stillFailed: nat, finalMessage: Option<string>)
    | NotARow(text: string)

  datatype Repair = Repair(at: string, previous: IngestStatus, next: IngestStatus, reason: string, documents: nat,
                           fatalType: string, runId: string, realFailures: bool, skippedEmpty: nat)

  datatype Metadata = Metadata(
    warnings: seq<string>, errorLog: Option<ErrorLog>, latestRunId: string, runId: string,
    investigationReady: bool, documents: nat, statusReason: string, displayStatus: string,
    warningCount: nat, errorCount: nat, summary: Option<Summary>, lastSuccessfulRun: string,
    parserErrors: seq<string>, bulkErrors: seq<string>,
    historicalParserErrors: Option<seq<string>>, historicalBulkErrors: Option<seq<string>>,
    runs: seq<RunRow>, progress: nat, currentPhase: string, artifactsFailed: nat,
    artifactsTotal: nat, artifactsDone: nat, artifactsProcessed: nat, retryRecovered: nat, retryStillFailed: nat,
    repairs: seq<Repair>)

  /** The columns of the evidence row that the function reads or writes. */
  datatype Record = Record(status: IngestStatus, meta: Metadata, errorLog: Option<ErrorLog>,
                           processedAt: Option<string>)

  const RECONCILED := "reconciled_failed_status_with_searchable_documents"
  const RECOMPUTED := "recomputed_searchable_evidence_status"
  const NO_DOCUMENTS := "no_searchable_documents_indexed"
  const WITH_WARNINGS := "completed_with_warnings"
  const RECOVERED_MESSAGE := "Recovered parser failures; evidence is ready with warnings."

  // ---- what is read from the record ---------------------------------------------------

  function EffectiveLog(r: Record): ErrorLog {
    if r.meta.errorLog.Some? && !IsEmpty(r.meta.errorLog.value) then r.meta.errorLog.value
    else if r.errorLog.Some? then r.errorLog.value
    else ErrorLog(None, None, None, {})
  }

  function FatalType(r: Record): string {
    var e := EffectiveLog(r);
    if e.fatalType.Some? then Trim(e.fatalType.value) else ""
  }

  /** Neither real parser failures nor a fatal infrastructure error. */
  predicate Clean(r: Record, p: Report) {
    !p.realFailures && FatalType(r) == ""
  }

  function TargetRun(m: Metadata): string {
    if Trim(m.latestRunId) != "" then Trim(m.latestRunId) else m.runId
  }

  function Warnings(r: Record, p: Report): nat {
    p.summary.indexedWithWarning + |r.meta.warnings|
  }

  predicate NoncriticalErrors(r: Record, p: Report) {
    Warnings(r, p) > 0 || p.summary.skippedEmpty > 0 || (!IsEmpty(EffectiveLog(r)) && !p.realFailures)
  }

  function NewStatus(r: Record, p: Report): IngestStatus {
    if Clean(r, p) then Completed else CompletedWithErrors
  }

  function Display(r: Record, p: Report): string {
    if !Clean(r, p) then StatusText(CompletedWithErrors)
    else if NoncriticalErrors(r, p) then WITH_WARNINGS
    else StatusText(Completed)
  }

  function Reason(r: Record): string {
    if r.status == Failed then RECONCILED else RECOMPUTED
  }

  function Recovered(m: Metadata, s: Summary): nat {
    if s.recovered > 0 then s.recovered else m.retryRecovered
  }

  // ---- the new record --------------------------------------------------------------------

  function Archived(log: ErrorLog): ErrorLog {
    var errors := if log.errors.Some? then log.errors.value else [];
    var kept := if errors == [] then log.historical
                else if log.historical.Some? && log.historical.value != [] then log.historical
                else Some(errors);
    log.(errors := Some([]), historical := kept)
  }

  function CleanedRow(row: RunRow, target: string, display: string, recovered: nat, message: bool): RunRow {
    if row.Row? && row.runId == target then
      row.(status := "completed", phase := display, progress := 100, lastError := None, artifactsFailed := 0,
           failedArtifacts := 0, recovered := recovered, stillFailed := 0,
           finalMessage := if message then Some(RECOVERED_MESSAGE) else row.finalMessage)
    else row
  }

  function CleanedRows(rows: seq<RunRow>, target: string, display: string, recovered: nat,
                       message: bool): (r: seq<RunRow>)
    ensures |r| == |rows|
  {
    seq(|rows|, k requires 0 <= k < |rows| => CleanedRow(rows[k], target, display, recovered, message))
  }

  /** When nothing failed, past errors move into the history ... */
  function ErrorsArchived(m: Metadata): Metadata {
    m.(historicalParserErrors :=
         if m.parserErrors != [] && m.historicalParserErrors.None? then Some(m.parserErrors)
         else m.historicalParserErrors,
       historicalBulkErrors :=
         if m.bulkErrors != [] && m.historicalBulkErrors.None? then Some(m.bulkErrors) else m.historicalBulkErrors,
       parserErrors := [], bulkErrors := [],
       errorLog := if m.errorLog.Some? then Some(Archived(m.errorLog.value)) else None)
  }

  /** ... and the rows and counters of the latest run are set to completed. */
  function RunsCompleted(m: Metadata, s: Summary): Metadata {
    m.(runs := CleanedRows(m.runs, TargetRun(m), m.displayStatus, Recovered(m, s), s.recovered > 0),
       progress := 100, currentPhase := m.displayStatus, artifactsFailed := 0,
       artifactsDone := if m.artifactsTotal > 0 then m.artifactsTotal else m.artifactsDone,
       artifactsProcessed := if m.artifactsTotal > 0 then m.artifactsTotal else m.artifactsProcessed,
       retryRecovered := Recovered(m, s), retryStillFailed := 0)
  }

  function Tidied(m: Metadata, s: Summary): Metadata {
    RunsCompleted(ErrorsArchived(m), s)
  }

  /** The metadata of an evidence with documents, before the latest run is tidied. */
  function Described(r: Record, documents: nat, p: Report): Metadata {
    r.meta.(investigationReady := true, documents := documents, statusReason := Reason(r),
            displayStatus := Display(r, p), warningCount := Warnings(r, p) + p.summary.skippedEmpty,
            errorCount := if p.realFailures then p.summary.dataLossExpected else if FatalType(r) != "" then 1 else 0,
            summary := Some(p.summary), lastSuccessfulRun := TargetRun(r.meta))
  }

  function Recomputed(r: Record, documents: nat, p: Report, now: string): Record {
    if documents == 0 then
      r.(meta := r.meta.(investigationReady := false, documents := 0, statusReason := NO_DOCUMENTS,
                         displayStatus := StatusText(r.status), warningCount := |r.meta.warnings|,
                         errorCount := if IsEmpty(EffectiveLog(r)) then 0 else 1))
    else
      var status, base := NewStatus(r, p), Described(r, documents, p);
      var tidy := if Clean(r, p) then Tidied(base, p.summary) else base;
      var repair := Repair(now, r.status, status, Reason(r), documents, FatalType(r), Trim(r.meta.latestRunId),
                           p.realFailures, p.summary.skippedEmpty);
      Record(status, tidy.(repairs := tidy.repairs + [repair]), r.errorLog,
             if r.processedAt.Some? then r.processedAt else Some(now))
  }

  // ---- running it again ----------------------------------------------------------------------

  /** The metadata holds an error log without any key, and nothing else is worth a warning. */
  predicate HollowLog(r: Record, p: Report) {
    && !p.realFailures
    && r.meta.errorLog.Some? && IsEmpty(r.meta.errorLog.value)
    && (r.errorLog.None? || IsEmpty(r.errorLog.value))
    && Warnings(r, p) == 0 && p.summary.skippedEmpty == 0
  }

  /** Run rows without the phase of the latest run, which repeats the display status. */
  function Unphased(rows: seq<RunRow>, target: string): (r: seq<RunRow>)
    ensures |r| == |rows|
    ensures forall k :: 0 <= k < |rows| ==>
      r[k] == if rows[k].Row? && rows[k].runId == target then rows[k].(phase := "") else rows[k]
  {
    seq(|rows|, k requires 0 <= k < |rows| =>
      if rows[k].Row? && rows[k].runId == target then rows[k].(phase := "") else rows[k])
  }

  /** The record without its reason, its repair history and what repeats the display status. */
  function Essence(r: Record): Record {
    r.(meta := r.meta.(statusReason := "", displayStatus := "", currentPhase := "", repairs := [],
                       runs := Unphased(r.meta.runs, TargetRun(r.meta))))
  }

  /** Without documents a second run changes nothing at all. */
  lemma NoDocumentsIdempotent(r: Record, p: Report, t: string, u: string)
    ensures Recomputed(Recomputed(r, 0, p, t), 0, p, u) == Recomputed(r, 0, p, t)
  {
    hide Trim;
  }

  lemma SecondLook(r: Record, documents: nat, p: Report, t: string)
    requires documents > 0
    ensures var s := Recomputed(r, documents, p, t);
      && FatalType(s) == FatalType(r) && Clean(s, p) == Clean(r, p)
      && Warnings(s, p) == Warnings(r, p) && TargetRun(s.meta) == TargetRun(r.meta)
      && s.status != Failed && s.meta.displayStatus == Display(r, p)
      && Recovered(s.meta, p.summary) == Recovered(r.meta, p.summary)
      && (IsEmpty(EffectiveLog(s)) <==>
          IsEmpty(EffectiveLog(r)) && !(Clean(r, p) && r.meta.errorLog.Some?))
  {
    hide Trim, CleanedRows;
  }

  lemma CleanedAgain(rows: seq<RunRow>, target: string, d: string, e: string, n: nat, message: bool)
    ensures var once := CleanedRows(rows, target, d, n, message);
      var twice := CleanedRows(once, target, e, n, message);
      && (forall k :: 0 <= k < |rows| ==>
            twice[k] == if once[k].Row? && once[k].runId == target then once[k].(phase := e) else once[k])
      && (d == e ==> twice == once)
  {}

  lemma ArchivedAgain(log: ErrorLog)
    ensures Archived(Archived(log)) == Archived(log)
  {}

  lemma RowsUnlessDisplay(r: Record, documents: nat, p: Report, t: string, u: string)
    requires documents > 0
    ensures var s := Recomputed(r, documents, p, t);
      var s' := Recomputed(s, documents, p, u);
      && |s'.meta.runs| == |s.meta.runs|
      && (forall k :: 0 <= k < |s.meta.runs| ==>
            s'.meta.runs[k] == s.meta.runs[k] ||
            (s.meta.runs[k].Row? && s.meta.runs[k].runId == TargetRun(s.meta)
             && s'.meta.runs[k] == s.meta.runs[k].(phase := s'.meta.displayStatus)))
      && (s'.meta.displayStatus == s.meta.displayStatus ==>
          s'.meta.runs == s.meta.runs && s'.meta.currentPhase == s.meta.currentPhase)
  {
    hide Trim, Archived, FatalType, NoncriticalErrors, EffectiveLog;
    SecondLook(r, documents, p, t);
    CleanedAgain(r.meta.runs, TargetRun(r.meta), Display(r, p), Display(Recomputed(r, documents, p, t), p),
                 Recovered(r.meta, p.summary), p.summary.recovered > 0);
  }

  /** With documents a second run changes nothing but the reason, what repeats the display status,
      and one more repair row. */
  lemma SecondRunKeepsEssence(r: Record, documents: nat, p: Report, t: string, u: string)
    requires documents > 0
    ensures var s := Recomputed(r, documents, p, t);
      var s' := Recomputed(s, documents, p, u);
      && Essence(s') == Essence(s)
      && |s'.meta.repairs| == |s.meta.repairs| + 1 && s.meta.repairs <= s'.meta.repairs
      && s'.meta.statusReason == RECOMPUTED
  {
    hide Trim, FatalType, NoncriticalErrors, EffectiveLog, CleanedRows, Display, Warnings, TargetRun, Archived, Clean,
      Unphased;
    SecondLook(r, documents, p, t);
    if r.meta.errorLog.Some? { ArchivedAgain(r.meta.errorLog.value); }
    SecondLook(Recomputed(r, documents, p, t), documents, p, u);
    PhasesAside(r, documents, p, t, u);
  }

  lemma PhasesAside(r: Record, documents: nat, p: Report, t: string, u: string)
    requires documents > 0
    ensures var s := Recomputed(r, documents, p, t);
      var s' := Recomputed(s, documents, p, u);
      Unphased(s'.meta.runs, TargetRun(s'.meta)) == Unphased(s.meta.runs, TargetRun(s.meta))
  {
    hide Recomputed, TargetRun, Unphased;
    RowsUnlessDisplay(r, documents, p, t, u);
    var s := Recomputed(r, documents, p, t);
    SecondLook(s, documents, p, u);
    var s' := Recomputed(s, documents, p, u);
    assert Unphased(s'.meta.runs, TargetRun(s.meta)) == Unphased(s.meta.runs, TargetRun(s.meta));
  }

  /** The display status of a second run is the same if and only if the error log in the metadata
      was not hollow: the first run puts a key into it, and the second takes it for an error log. */
  lemma DisplayStableIff(r: Record, documents: nat, p: Report, t: string, u: string)
    requires documents > 0
    ensures var s := Recomputed(r, documents, p, t);
      Recomputed(s, documents, p, u).meta.displayStatus == s.meta.displayStatus <==> !HollowLog(r, p)
  {
    hide Trim, Tidied, Recomputed, FatalType, EffectiveLog, HollowLog;
    SecondLook(r, documents, p, t);
    SecondLook(Recomputed(r, documents, p, t), documents, p, u);
    HollowIsClean(r, p);
    assert |WITH_WARNINGS| == 23 && |StatusText(Completed)| == 9;
  }

  /** With a hollow log the display goes from "completed" to "completed with warnings". */
  lemma HollowDisplays(r: Record, documents: nat, p: Report, t: string, u: string)
    requires documents > 0 && HollowLog(r, p)
    ensures var s := Recomputed(r, documents, p, t);
      && s.meta.displayStatus == StatusText(Completed)
      && Recomputed(s, documents, p, u).meta.displayStatus == WITH_WARNINGS
  {
    hide Trim, Tidied, Recomputed, FatalType, EffectiveLog, HollowLog;
    SecondLook(r, documents, p, t);
    SecondLook(Recomputed(r, documents, p, t), documents, p, u);
    HollowIsClean(r, p);
  }

  /** Such a record: completed, without warnings, and with an error log that has no key. */
  lemma DisplayChanges(t: string, u: string) returns (r: Record, p: Report)
    ensures HollowLog(r, p) && r.status == Completed && r.meta.warnings == [] && r.errorLog == None
    ensures var s := Recomputed(r, 1, p, t);
      Recomputed(s, 1, p, u).meta.displayStatus != s.meta.displayStatus
  {
    hide Recomputed, Trim;
    var m := Metadata([], Some(ErrorLog(None, None, None, {})), "", "", true, 1, "", "completed", 0, 0, None, "", [],
                      [],
                      None, None, [], 100, "completed", 0, 0, 0, 0, 0, 0, []);
    r := Record(Completed, m, None, Some(""));
    p := Report(Summary(0, 0, 0, 0), false);
    HollowDisplays(r, 1, p, t, u);
    assert |WITH_WARNINGS| == 23 && |StatusText(Completed)| == 9;
  }

  lemma HollowIsClean(r: Record, p: Report)
    ensures HollowLog(r, p) <==>
      Clean(r, p) && !NoncriticalErrors(r, p) && r.meta.errorLog.Some? && IsEmpty(EffectiveLog(r))
  {
    assert Trim("") == "";
  }

  /** From the second run on only the repair history grows. */
  lemma ThirdRunChangesNothing(r: Record, documents: nat, p: Report, t: string, u: string, v: string)
    requires documents > 0
    ensures var s := Recomputed(Recomputed(r, documents, p, t), documents, p, u);
      var s' := Recomputed(s, documents, p, v);
      s'.(meta := s'.meta.(repairs := [])) == s.(meta := s.meta.(repairs := []))
  {
    hide Trim, Tidied, Recomputed, HollowLog;
    var a := Recomputed(r, documents, p, t);
    var s := Recomputed(a, documents, p, u);
    var s' := Recomputed(s, documents, p, v);
    NeverHollowAgain(r, documents, p, t);
    DisplayStableIff(a, documents, p, u, v);
    RowsUnlessDisplay(a, documents, p, u, v);
    SecondRunKeepsEssence(r, documents, p, t, u);
    SecondRunKeepsEssence(a, documents, p, u, v);
    EssenceAndRest(s, s');
  }

  lemma NeverHollowAgain(r: Record, documents: nat, p: Report, t: string)
    requires documents > 0
    ensures !HollowLog(Recomputed(r, documents, p, t), p)
  {
    hide Trim, CleanedRows;
    SecondLook(r, documents, p, t);
    HollowIsClean(r, p);
    HollowIsClean(Recomputed(r, documents, p, t), p);
  }

  lemma EssenceAndRest(s: Record, s': Record)
    requires Essence(s) == Essence(s') && s.meta.statusReason == s'.meta.statusReason
    requires s.meta.displayStatus == s'.meta.displayStatus && s.meta.currentPhase == s'.meta.currentPhase
      && s.meta.runs == s'.meta.runs
    ensures s'.(meta := s'.meta.(repairs := [])) == s.(meta := s.meta.(repairs := []))
  {}

  // ---- what one run sets --------------------------------------------------------------------

  /** The error log that is consulted: the one in the metadata if it says anything, else the row's. */
  function Consulted(r: Record): Option<ErrorLog> {
    match r.meta.errorLog
    case Some(e) =>
      if e.fatalType.Some? || e.errors.Some? || e.historical.Some? || e.others != {} then Some(e) else r.errorLog
    case None => r.errorLog
  }

  /** The consulted log names a fatal error. */
  predicate Fatal(r: Record) {
    Consulted(r).Some? && Consulted(r).value.fatalType.Some? && Trim(Consulted(r).value.fatalType.value) != ""
  }

  predicate Noisy(r: Record, p: Report) {
    || p.summary.indexedWithWarning > 0 || r.meta.warnings != [] || p.summary.skippedEmpty > 0
    || (Consulted(r).Some? && Consulted(r).value != ErrorLog(None, None, None, {}))
  }

  lemma ConsultedIsEffective(r: Record)
    ensures EffectiveLog(r) == if Consulted(r).Some? then Consulted(r).value else ErrorLog(None, None, None, {})
    ensures FatalType(r) != "" <==> Fatal(r)
  {}

  /** With documents the status is completed with errors if and only if parsers really failed or the
      consulted log names a fatal error, and completed otherwise; display and counts follow. */
  lemma StatusIff(r: Record, documents: nat, p: Report, now: string)
    requires documents > 0
    ensures var s := Recomputed(r, documents, p, now);
      && (s.status == CompletedWithErrors <==> p.realFailures || Fatal(r))
      && (s.status == Completed <==> !p.realFailures && !Fatal(r))
      && s.meta.displayStatus == (if s.status == CompletedWithErrors then "completed_with_errors"
                                  else if Noisy(r, p) then "completed_with_warnings" else "completed")
      && s.meta.errorCount == (if p.realFailures then p.summary.dataLossExpected else if Fatal(r) then 1 else 0)
      && s.meta.warningCount == p.summary.indexedWithWarning + |r.meta.warnings| + p.summary.skippedEmpty
      && s.meta.investigationReady && s.meta.documents == documents
  {
    hide Trim, CleanedRows, Archived, TargetRun, FatalType, Fatal, EffectiveLog, Consulted;
    ConsultedIsEffective(r);
  }

  /** Without documents the status stays, and the evidence is not ready. */
  lemma NotReadyWithout(r: Record, p: Report, now: string)
    ensures var s := Recomputed(r, 0, p, now);
      && s.status == r.status && !s.meta.investigationReady && s.meta.displayStatus == StatusText(r.status)
      && s.meta.warningCount == |r.meta.warnings|
      && (s.meta.errorCount == 0 <==> Consulted(r).None? || Consulted(r).value == ErrorLog(None, None, None, {}))
      && s.meta.errorCount <= 1
  {
    hide Trim;
    ConsultedIsEffective(r);
  }

  /** The run that a record counts as its latest. */
  predicate LatestRun(m: Metadata, id: string) {
    if Trim(m.latestRunId) != "" then id == Trim(m.latestRunId) else id == m.runId
  }

  /** A completed record lists no present errors, and the row of its latest run reads completed; a
      record with errors keeps its lists and its rows. Errors become history only where there was
      no history of that kind yet: otherwise they are dropped. */
  lemma CompletedIsTidy(r: Record, documents: nat, p: Report, now: string)
    requires documents > 0
    ensures var s := Recomputed(r, documents, p, now);
      && |s.meta.runs| == |r.meta.runs|
      && (s.status == CompletedWithErrors ==>
            && s.meta.parserErrors == r.meta.parserErrors && s.meta.bulkErrors == r.meta.bulkErrors
            && s.meta.errorLog == r.meta.errorLog && s.meta.runs == r.meta.runs)
      && (s.status == Completed ==>
            && s.meta.parserErrors == [] && s.meta.bulkErrors == []
            && (s.meta.errorLog.Some? ==> s.meta.errorLog.value.errors == Some([]))
            && (r.meta.parserErrors != [] && r.meta.historicalParserErrors.None? ==>
                  s.meta.historicalParserErrors == Some(r.meta.parserErrors))
            && (r.meta.historicalParserErrors.Some? ==> s.meta.historicalParserErrors == r.meta.historicalParserErrors)
            && (r.meta.bulkErrors != [] && r.meta.historicalBulkErrors.None? ==>
                  s.meta.historicalBulkErrors == Some(r.meta.bulkErrors))
            && (r.meta.historicalBulkErrors.Some? ==> s.meta.historicalBulkErrors == r.meta.historicalBulkErrors))
  {
    hide Trim, FatalType;
  }

  lemma RowsOfCompleted(r: Record, documents: nat, p: Report, now: string, k: nat)
    requires documents > 0 && k < |r.meta.runs| && Recomputed(r, documents, p, now).status == Completed
    ensures var s := Recomputed(r, documents, p, now);
      |s.meta.runs| == |r.meta.runs| &&
      var before, after := r.meta.runs[k], s.meta.runs[k];
      && (!(before.Row? && LatestRun(r.meta, before.runId)) ==> after == before)
      && (before.Row? && LatestRun(r.meta, before.runId) ==>
            && after.Row? && after.runId == before.runId && after.status == "completed" && after.progress == 100
            && after.lastError == None && after.artifactsFailed == 0 && after.failedArtifacts == 0
            && after.stillFailed == 0 && after.phase == s.meta.displayStatus
            && after.recovered == if p.summary.recovered > 0 then p.summary.recovered else r.meta.retryRecovered)
  {
    hide Trim, FatalType;
  }

  /** Parser errors present beside an older history are dropped. */
  lemma ErrorsAreDropped(t: string) returns (r: Record, p: Report)
    ensures r.meta.parserErrors == ["new"]
    ensures var m := Recomputed(r, 1, p, t).meta;
      m.parserErrors == [] && m.historicalParserErrors == Some(["old"])
  {
    hide Recomputed, Trim;
    var m := Metadata([], None, "", "", true, 1, "", "completed", 0, 0, None, "", ["new"], [], Some(["old"]), None, [],
                      100, "completed", 0, 0, 0, 0, 0, 0, []);
    r := Record(Completed, m, None, Some(""));
    p := Report(Summary(0, 0, 0, 0), false);
    StatusIff(r, 1, p, t);
    CompletedIsTidy(r, 1, p, t);
  }

  // ---- as it runs ---------------------------------------------------------------------------------

  class Evidence {
    var ingestStatus: IngestStatus
    var metadata: Metadata
    const errorLog: Option<ErrorLog>
    var processedAt: Option<string>

    function Row(): Record
      reads this
    {
      Record(ingestStatus, metadata, errorLog, processedAt)
    }

    constructor (r: Record)
      ensures Row() == r
    {
      ingestStatus, metadata, errorLog, processedAt := r.status, r.meta, r.errorLog, r.processedAt;
    }

    /** The loop that copies the run rows and cleans those of the latest run. */
    method CleanRuns(target: string, display: string, recovered: nat, message: bool) returns (cleaned: seq<RunRow>)
      ensures cleaned == CleanedRows(metadata.runs, target, display, recovered, message)
    {
      cleaned := [];
      for n := 0 to |metadata.runs|
        invariant |cleaned| == n
        invariant forall k :: 0 <= k < n ==>
          cleaned[k] == CleanedRow(metadata.runs[k], target, display, recovered, message)
      {
        var row := metadata.runs[n];
        if row.Row? && row.runId == target {
          row := row.(status := "completed", phase := display, progress := 100, lastError := None);
          row := row.(artifactsFailed := 0, failedArtifacts := 0, recovered := recovered, stillFailed := 0);
          if message { row := row.(finalMessage := Some(RECOVERED_MESSAGE)); }
        }
        cleaned := cleaned + [row];
      }
    }

    method ArchiveErrors()
      modifies this`metadata
      ensures metadata == ErrorsArchived(old(metadata))
    {
      if metadata.parserErrors != [] && metadata.historicalParserErrors.None? {
        metadata := metadata.(historicalParserErrors := Some(metadata.parserErrors));
      }
      if metadata.bulkErrors != [] && metadata.historicalBulkErrors.None? {
        metadata := metadata.(historicalBulkErrors := Some(metadata.bulkErrors));
      }
      metadata := metadata.(parserErrors := [], bulkErrors := []);
      if metadata.errorLog.Some? {
        var log := metadata.errorLog.value;
        if log.errors.Some? && log.errors.value != [] && !(log.historical.Some? && log.historical.value != []) {
          log := log.(historical := log.errors);
        }
        metadata := metadata.(errorLog := Some(log.(errors := Some([]))));
      }
    }

    method CompleteRuns(s: Summary)
      modifies this`metadata
      ensures metadata == RunsCompleted(old(metadata), s)
    {
      hide CleanedRows, TargetRun, Recovered;
      var recovered := Recovered(metadata, s);
      var cleaned := CleanRuns(TargetRun(metadata), metadata.displayStatus, recovered, s.recovered > 0);
      metadata := metadata.(runs := cleaned, progress := 100, currentPhase := metadata.displayStatus,
                            artifactsFailed := 0);
      if metadata.artifactsTotal > 0 {
        metadata := metadata.(artifactsDone := metadata.artifactsTotal, artifactsProcessed := metadata.artifactsTotal);
      }
      metadata := metadata.(retryRecovered := recovered, retryStillFailed := 0);
    }

    /** The branch for an evidence without documents. */
    method MarkNotReady(ghost p: Report, ghost now: string)
      modifies this
      ensures Row() == Recomputed(old(Row()), 0, p, now)
    {
      hide EffectiveLog, IsEmpty, Trim;
      var before := Row();
      metadata := metadata.(investigationReady := false, documents := 0, statusReason := NO_DOCUMENTS);
      metadata := metadata.(displayStatus := StatusText(ingestStatus), warningCount := |metadata.warnings|);
      metadata := metadata.(errorCount := if IsEmpty(EffectiveLog(before)) then 0 else 1);
    }

    /** Status, reason, display status and counts. */
    method Describe(documents: nat, p: Report)
      modifies this
      ensures Row() == old(Row()).(status := NewStatus(old(Row()), p), meta := Described(old(Row()), documents, p))
    {
      hide FatalType, EffectiveLog, TargetRun, Warnings, NoncriticalErrors, IsEmpty;
      var before := Row();
      var fatal := FatalType(before);
      var reason := if ingestStatus == Failed then RECONCILED else RECOMPUTED;
      ingestStatus := if p.realFailures || fatal != "" then CompletedWithErrors else Completed;
      metadata := metadata.(investigationReady := true, documents := documents, statusReason := reason);
      if p.realFailures || fatal != "" {
        metadata := metadata.(displayStatus := StatusText(ingestStatus));
      } else if NoncriticalErrors(before, p) {
        metadata := metadata.(displayStatus := WITH_WARNINGS);
      } else {
        metadata := metadata.(displayStatus := StatusText(ingestStatus));
      }
      metadata := metadata.(warningCount := Warnings(before, p) + p.summary.skippedEmpty);
      metadata := metadata.(
        errorCount := if p.realFailures then p.summary.dataLossExpected else if fatal != "" then 1 else 0);
      metadata := metadata.(summary := Some(p.summary), lastSuccessfulRun := TargetRun(before.meta));
    }

    /** `_recompute_evidence_status`, for a given document count and problem report. */
    method Recompute(documents: nat, p: Report, now: string)
      modifies this
      ensures Row() == Recomputed(old(Row()), documents, p, now)
    {
      hide ErrorsArchived, RunsCompleted, FatalType, EffectiveLog, TargetRun, Trim, Described, NewStatus, IsEmpty;
      var before := Row();
      if documents == 0 {
        MarkNotReady(p, now);
        return;
      }
      Describe(documents, p);
      var fatal := FatalType(before);
      if !p.realFailures && fatal == "" {
        ArchiveErrors();
        CompleteRuns(p.summary);
      }
      var repair := Repair(now, before.status, ingestStatus, Reason(before), documents, fatal,
                           Trim(before.meta.latestRunId), p.realFailures, p.summary.skippedEmpty);
      metadata := metadata.(repairs := metadata.repairs + [repair]);
      if processedAt.None? { processedAt := Some(now); }
    }
  }
}
