/** The search-text backfill: one run of the update script on one document, and what repeated
    runs do. The script is called idempotent where it is declared; it is not, but it converges. */
module Backfill {
  import opened Text

  const MAX_VALUES := 60
  const MAX_CHARS := 512
  const MAX_LENGTH := 8192
  const SEPARATOR := " | "
  const SKIP_KEYS := {"raw_xml", "payload_columns", "event_data_summary"}
  const PLACEHOLDERS := {"-", "--", "0x0", "0", "n/a", "null", "none", "%%1833", "%%1843"}
  const SUMMARY_COLUMNS := {"mapdescription", "username", "remotehost", "executableinfo"}

  /** A field value: printable text, or something the script passes over (null, a map, a list). */
  datatype Value = Printable(text: string) | Other
  datatype Entry = Entry(key: string, value: Value)

  /** A document: its raw columns and event data, when present, and its search text. */
  datatype Document = Document(hasWindows: bool, raw: seq<Entry>, eventData: seq<Entry>, searchText: string)

  predicate SummaryColumn(key: string) {
    Lower(key) in SUMMARY_COLUMNS || "payloaddata" <= Lower(key)
  }

  function SummaryEntries(raw: seq<Entry>): seq<Entry> {
    if raw == [] then []
    else (if SummaryColumn(raw[0].key) then [raw[0]] else []) + SummaryEntries(raw[1..])
  }

  function Candidates(d: Document): seq<Entry> {
    if d.hasWindows then SummaryEntries(d.raw) + d.eventData else []
  }

  /** The checks that do not depend on the search text. */
  predicate Eligible(e: Entry) {
    && Lower(e.key) !in SKIP_KEYS
    && e.value.Printable?
    && 0 < |Trim(e.value.text)| <= MAX_CHARS
    && Lower(Trim(e.value.text)) !in PLACEHOLDERS
  }

  function Texts(es: seq<Entry>): seq<string> {
    if es == [] then []
    else (if Eligible(es[0]) then [Trim(es[0].value.text)] else []) + Texts(es[1..])
  }

  /** The texts that do not occur in the lower-cased search text `low`, each lower-cased form once. */
  function MissingFrom(texts: seq<string>, low: string, seen: set<string>): seq<string> {
    if texts == [] then []
    else
      var l := Lower(texts[0]);
      if l in seen || Contains(low, l) then MissingFrom(texts[1..], low, seen)
      else [texts[0]] + MissingFrom(texts[1..], low, seen + {l})
  }

  function Missing(texts: seq<string>, existing: string): seq<string> {
    MissingFrom(texts, Lower(existing), {})
  }

  function Capped(s: seq<string>): seq<string> {
    if |s| <= MAX_VALUES then s else s[..MAX_VALUES]
  }

  function Extended(existing: string, added: seq<string>): string {
    if existing == "" then Join(added, SEPARATOR) else existing + SEPARATOR + Join(added, SEPARATOR)
  }

  /** The search text after one run. */
  function Run(texts: seq<string>, existing: string): string {
    var added := Capped(Missing(texts, existing));
    if added == [] then existing
    else
      var merged := Extended(existing, added);
      if |merged| > MAX_LENGTH then merged[..MAX_LENGTH] else merged
  }

  function Runs(texts: seq<string>, existing: string, n: nat): string {
    if n == 0 then existing else Run(texts, Runs(texts, existing, n - 1))
  }

  // ---- the script -----------------------------------------------------------------

  lemma {:induction false} TextsConcat(a: seq<Entry>, b: seq<Entry>)
    ensures Texts(a + b) == Texts(a) + Texts(b)
  {
    hide Eligible, Trim;
    if a == [] {
      assert a + b == b;
    } else {
      assert (a + b)[1..] == a[1..] + b;
      TextsConcat(a[1..], b);
      assert Texts(a + b) == Texts(a) + Texts(b);
    }
  }

  /** What one more candidate adds. */
  lemma PickStep(es: seq<Entry>, n: nat, low: string, seen: set<string>)
    requires n < |es|
    ensures var rest := Texts(es[n + 1..]);
      MissingFrom(Texts(es[n..]), low, seen) ==
        if !Eligible(es[n]) then MissingFrom(rest, low, seen)
        else
          var text := Trim(es[n].value.text);
          if Lower(text) in seen || Contains(low, Lower(text)) then MissingFrom(rest, low, seen)
          else [text] + MissingFrom(rest, low, seen + {Lower(text)})
  {
    hide Eligible, Contains, Lower, Trim;
    assert es[n..][1..] == es[n + 1..];
    var rest := Texts(es[n + 1..]);
    EligibleHasText(es[n]);
    if Eligible(es[n]) {
      assert Texts(es[n..]) == [Trim(es[n].value.text)] + rest;
      assert Texts(es[n..])[1..] == rest;
    } else {
      assert Texts(es[n..]) == [] + rest == rest;
    }
  }

  lemma EligibleHasText(e: Entry)
    ensures Eligible(e) ==> e.value.Printable?
  {}

  /** Picking the values to add: the loop over the candidates. */
  method PickValues(candidates: seq<Entry>, existing: string) returns (added: seq<string>)
    ensures added == Capped(Missing(Texts(candidates), existing))
  {
    hide Contains, Lower, Trim, Missing, MissingFrom, Eligible, Texts;
    MissingIs(Texts(candidates), existing);
    assert candidates[0..] == candidates;
    added := [];
    var seen: set<string> := {};
    var low := Lower(existing);
    var n := 0;
    while n < |candidates| && |added| < MAX_VALUES
      invariant 0 <= n <= |candidates| && |added| <= MAX_VALUES
      invariant added + MissingFrom(Texts(candidates[n..]), low, seen) == Missing(Texts(candidates), existing)
    {
      var entry := candidates[n];
      PickStep(candidates, n, low, seen);
      EligibleHasText(entry);
      n := n + 1;
      if Eligible(entry) {
        var text := Trim(entry.value.text);
        var lowered := Lower(text);
        if lowered !in seen && !Contains(low, lowered) {
          seen := seen + {lowered};
          added := added + [text];
        }
      }
    }
    if n == |candidates| {
      NothingLeft(low, seen);
      assert candidates[n..] == [];
    }
  }

  lemma NothingLeft(low: string, seen: set<string>)
    ensures MissingFrom(Texts([]), low, seen) == []
  {}

  lemma MissingIs(texts: seq<string>, existing: string)
    ensures Missing(texts, existing) == MissingFrom(texts, Lower(existing), {})
  {}

  /** The script on one document. */
  method UpdateDocument(d: Document) returns (searchText: string)
    ensures searchText == Run(Texts(Candidates(d)), d.searchText)
  {
    hide Contains, Eligible, SummaryColumn, Lower;
    searchText := d.searchText;
    if !d.hasWindows { return; }
    var candidates := Collect(d);
    var added := PickValues(candidates, d.searchText);
    if added == [] { return; }
    var joined := Join(added, SEPARATOR);
    var merged := if |d.searchText| > 0 then d.searchText + SEPARATOR + joined else joined;
    if |merged| > MAX_LENGTH { merged := merged[..MAX_LENGTH]; }
    searchText := merged;
  }

  method Collect(d: Document) returns (candidates: seq<Entry>)
    requires d.hasWindows
    ensures candidates == Candidates(d)
  {
    hide SummaryColumn;
    candidates := [];
    for n := 0 to |d.raw|
      invariant candidates + SummaryEntries(d.raw[n..]) == SummaryEntries(d.raw)
    {
      if SummaryColumn(d.raw[n].key) { candidates := candidates + [d.raw[n]]; }
    }
    candidates := candidates + d.eventData;
  }

  // ---- what one run adds ------------------------------------------------------------

  ghost function LoweredSet(s: seq<string>): set<string> {
    set t | t in s :: Lower(t)
  }

  /** The lower-cased forms not yet seen and not contained. */
  ghost function Forms(texts: seq<string>, low: string, seen: set<string>): set<string> {
    set t | t in texts && Lower(t) !in seen && !Contains(low, Lower(t)) :: Lower(t)
  }

  lemma FormsStep(texts: seq<string>, low: string, seen: set<string>)
    requires texts != []
    ensures var l := Lower(texts[0]);
      Forms(texts, low, seen) ==
        if l in seen || Contains(low, l) then Forms(texts[1..], low, seen) else {l} + Forms(texts[1..], low, seen + {l})
  {
    hide Lower, Contains;
    assert forall t :: t in texts <==> t == texts[0] || t in texts[1..];
  }

  /** The missing texts have these forms, each once. */
  lemma {:induction false} MissingAsSet(texts: seq<string>, low: string, seen: set<string>)
    ensures LoweredSet(MissingFrom(texts, low, seen)) == Forms(texts, low, seen)
    ensures |LoweredSet(MissingFrom(texts, low, seen))| == |MissingFrom(texts, low, seen)|
    ensures forall t :: t in MissingFrom(texts, low, seen) ==>
      t in texts && Lower(t) !in seen && !Contains(low, Lower(t))
  {
    hide Lower, Contains, Forms;
    if texts == [] {
      assert Forms([], low, seen) == {} by { NoForms(low, seen); }
    } else {
      var l := Lower(texts[0]);
      FormsStep(texts, low, seen);
      if l in seen || Contains(low, l) {
        MissingAsSet(texts[1..], low, seen);
      } else {
        var rest := MissingFrom(texts[1..], low, seen + {l});
        MissingAsSet(texts[1..], low, seen + {l});
        var all := MissingFrom(texts, low, seen);
        assert all == [texts[0]] + rest;
        assert LoweredSet(all) == {l} + LoweredSet(rest);
        assert l !in LoweredSet(rest);
      }
    }
  }

  lemma NoForms(low: string, seen: set<string>)
    ensures Forms([], low, seen) == {}
  {}

  lemma {:induction false} JoinContains(parts: seq<string>, k: nat)
    requires k < |parts|
    ensures Contains(Lower(Join(parts, SEPARATOR)), Lower(parts[k]))
  {
    hide Lower, Contains;
    var s := Lower(parts[k]);
    ContainsSelf(s);
    if |parts| > 1 {
      var rest := Join(parts[1..], SEPARATOR);
      LowerConcat(parts[0] + SEPARATOR, rest);
      LowerConcat(parts[0], SEPARATOR);
      if k == 0 {
        ContainsIn("", s, Lower(SEPARATOR) + Lower(rest), s);
        assert "" + s + (Lower(SEPARATOR) + Lower(rest)) == s + Lower(SEPARATOR) + Lower(rest);
      } else {
        JoinContains(parts[1..], k - 1);
        ContainsIn(Lower(parts[0]) + Lower(SEPARATOR), Lower(rest), "", s);
        assert Lower(parts[0]) + Lower(SEPARATOR) + Lower(rest) + "" ==
          Lower(parts[0]) + Lower(SEPARATOR) + Lower(rest);
      }
    }
  }

  /** The extended text contains what was added and everything the old text contained. */
  lemma ExtendedContains(existing: string, added: seq<string>, needle: string)
    requires Contains(Lower(existing), needle) || exists k :: 0 <= k < |added| && needle == Lower(added[k])
    ensures Contains(Lower(Extended(existing, added)), needle)
  {
    hide Lower, Contains;
    var joined := Join(added, SEPARATOR);
    LowerConcat(existing + SEPARATOR, joined);
    LowerConcat(existing, SEPARATOR);
    if k :| 0 <= k < |added| && needle == Lower(added[k]) {
      JoinContains(added, k);
      ContainsIn(Lower(existing) + Lower(SEPARATOR), Lower(joined), "", needle);
      assert Lower(existing) + Lower(SEPARATOR) + Lower(joined) + "" ==
        Lower(existing) + Lower(SEPARATOR) + Lower(joined);
    } else if existing == "" {
      NothingInEmpty(needle);
      ContainsIn("", "", Lower(joined), needle);
      assert "" + "" + Lower(joined) == Lower(joined);
    } else {
      ContainsIn("", Lower(existing), Lower(SEPARATOR) + Lower(joined), needle);
      assert "" + Lower(existing) + (Lower(SEPARATOR) + Lower(joined)) ==
        Lower(existing) + Lower(SEPARATOR) + Lower(joined);
    }
  }

  lemma NothingInEmpty(needle: string)
    requires Contains(Lower(""), needle)
    ensures Contains("", needle)
  {}

  /** A run that is not cut leaves at most the missing values it had no room for. */
  lemma RunShrinksMissing(texts: seq<string>, existing: string)
    requires |Extended(existing, Capped(Missing(texts, existing)))| <= MAX_LENGTH
    ensures |Missing(texts, Run(texts, existing))| <= |Missing(texts, existing)| - |Capped(Missing(texts, existing))|
  {
    hide Lower, Contains, MissingFrom;
    var before, after := Missing(texts, existing), Missing(texts, Run(texts, existing));
    var added := Capped(before);
    var rest := before[|added|..];
    MissingAsSet(texts, Lower(existing), {});
    MissingAsSet(texts, Lower(Run(texts, existing)), {});
    assert before == added + rest;
    forall l | l in LoweredSet(after) ensures l in LoweredSet(rest) {
      var t :| t in after && Lower(t) == l;
      StillMissing(texts, existing, t);
    }
    SubsetSize(LoweredSet(after), LoweredSet(rest));
    DistinctFormsSize(rest);
  }

  /** What is missing after an uncut run was missing before and did not fit under the cap. */
  lemma StillMissing(texts: seq<string>, existing: string, t: string)
    requires |Extended(existing, Capped(Missing(texts, existing)))| <= MAX_LENGTH
    requires t in Missing(texts, Run(texts, existing))
    ensures Lower(t) in LoweredSet(Missing(texts, existing)[|Capped(Missing(texts, existing))|..])
  {
    hide Lower, Contains, MissingFrom;
    var before := Missing(texts, existing);
    var added := Capped(before);
    MissingAsSet(texts, Lower(existing), {});
    MissingAsSet(texts, Lower(Run(texts, existing)), {});
    if added != [] {
      if Contains(Lower(existing), Lower(t)) { ExtendedContains(existing, added, Lower(t)); }
      assert Lower(t) in LoweredSet(before);
      var u :| u in before && Lower(u) == Lower(t);
      var k :| 0 <= k < |before| && before[k] == u;
      if k < |added| {
        assert added[k] == u;
        ExtendedContains(existing, added, Lower(t));
      }
      assert before[|added|..][k - |added|] == u;
    }
  }

  lemma {:induction false} DistinctFormsSize(s: seq<string>)
    ensures |LoweredSet(s)| <= |s|
  {
    hide Lower;
    if s != [] {
      DistinctFormsSize(s[1..]);
      assert LoweredSet(s) == {Lower(s[0])} + LoweredSet(s[1..]);
    }
  }

  // ---- fixpoints -------------------------------------------------------------------

  lemma ExtendedIsLonger(existing: string, added: seq<string>)
    requires added != [] && added[0] != ""
    ensures |Extended(existing, added)| > |existing| && existing <= Extended(existing, added)
  {}

  lemma MissingNonEmpty(texts: seq<string>, existing: string)
    requires forall t :: t in texts ==> t != ""
    ensures Capped(Missing(texts, existing)) != [] ==> Capped(Missing(texts, existing))[0] != ""
  {
    hide MissingFrom, Lower;
    MissingAsSet(texts, Lower(existing), {});
    if Missing(texts, existing) != [] { assert Missing(texts, existing)[0] in Missing(texts, existing); }
  }

  /** A search text is left alone exactly when nothing is missing from it or it is 8192 long. */
  lemma FixedIff(texts: seq<string>, existing: string)
    requires forall t :: t in texts ==> t != ""
    ensures Run(texts, existing) == existing <==> Missing(texts, existing) == [] || |existing| == 8192
  {
    hide Missing;
    var added := Capped(Missing(texts, existing));
    if added != [] {
      MissingNonEmpty(texts, existing);
      ExtendedIsLonger(existing, added);
      assert |existing| == MAX_LENGTH ==> Extended(existing, added)[..MAX_LENGTH] == existing;
    }
  }

  /** The first 8192 characters of the old text never change. */
  lemma {:induction false} PrefixNeverChanges(texts: seq<string>, existing: string, n: nat)
    requires forall t :: t in texts ==> t != ""
    ensures var k := if |existing| < 8192 then |existing| else 8192;
      |Runs(texts, existing, n)| >= k && Runs(texts, existing, n)[..k] == existing[..k]
  {
    hide Missing, Extended;
    if n > 0 {
      PrefixNeverChanges(texts, existing, n - 1);
      var e := Runs(texts, existing, n - 1);
      var added := Capped(Missing(texts, e));
      if added != [] {
        MissingNonEmpty(texts, e);
        ExtendedIsLonger(e, added);
        var m := if |e| < MAX_LENGTH then |e| else MAX_LENGTH;
        assert Run(texts, e)[..m] == e[..m];
      }
    }
  }

  lemma {:induction false} ProgressOrCut(texts: seq<string>, existing: string, n: nat)
    requires forall t :: t in texts ==> t != ""
    ensures |Runs(texts, existing, n)| == MAX_LENGTH
      || |Missing(texts, Runs(texts, existing, n))| + n * MAX_VALUES <= |Missing(texts, existing)|
      || Missing(texts, Runs(texts, existing, n)) == []
  {
    hide Missing, Extended;
    if n > 0 {
      ProgressOrCut(texts, existing, n - 1);
      var e := Runs(texts, existing, n - 1);
      FixedIff(texts, e);
      if |e| != MAX_LENGTH && Missing(texts, e) != [] {
        if |Extended(e, Capped(Missing(texts, e)))| <= MAX_LENGTH { RunShrinksMissing(texts, e); }
      }
    }
  }

  /** With `m` eligible values missing, any `n` runs with `60 * n >= m` reach a fixpoint, and from
      there further runs change nothing. */
  lemma RunsConverge(texts: seq<string>, existing: string, n: nat, more: nat)
    requires forall t :: t in texts ==> t != ""
    requires n * 60 >= |Missing(texts, existing)|
    ensures Runs(texts, existing, n + more) == Runs(texts, existing, n)
    decreases more
  {
    hide Missing, Run;
    ProgressOrCut(texts, existing, n);
    FixedIff(texts, Runs(texts, existing, n));
    if more > 0 { RunsConverge(texts, existing, n, more - 1); }
  }

  /** A fixed text is full or holds every eligible value. */
  lemma FixedTextIsComplete(texts: seq<string>, existing: string, t: string)
    requires forall t :: t in texts ==> t != ""
    requires Run(texts, existing) == existing && t in texts
    ensures |existing| == 8192 || Contains(Lower(existing), Lower(t))
  {
    hide Run, Contains, Lower, MissingFrom;
    FixedIff(texts, existing);
    MissingAsSet(texts, Lower(existing), {});
    assert Contains(Lower(existing), Lower(t)) || Lower(t) in LoweredSet(Missing(texts, existing));
  }

  // ---- one run on a document's own fields ---------------------------------------------------

  /** A field of the document that the search text should mention. */
  predicate Worth(d: Document, e: Entry) {
    && d.hasWindows
    && (e in d.eventData
        || (e in d.raw && (Lower(e.key) in {"mapdescription", "username", "remotehost", "executableinfo"}
                           || "payloaddata" <= Lower(e.key))))
    && Lower(e.key) !in {"raw_xml", "payload_columns", "event_data_summary"}
    && e.value.Printable? && 1 <= |Trim(e.value.text)| <= 512
    && Lower(Trim(e.value.text)) !in {"-", "--", "0x0", "0", "n/a", "null", "none", "%%1833", "%%1843"}
  }

  /** `t` is the text of such a field. */
  ghost predicate Mentions(d: Document, t: string) {
    exists e :: Worth(d, e) && t == Trim(e.value.text)
  }

  lemma {:induction false} SummaryMembers(raw: seq<Entry>, e: Entry)
    ensures e in SummaryEntries(raw) <==> e in raw && SummaryColumn(e.key)
  {
    hide SummaryColumn;
    if raw != [] { SummaryMembers(raw[1..], e); }
  }

  lemma {:induction false} TextsMembers(es: seq<Entry>, t: string)
    ensures t in Texts(es) <==> exists e :: e in es && Eligible(e) && e.value.Printable? && t == Trim(e.value.text)
  {
    hide Eligible, Trim;
    if es != [] {
      TextsMembers(es[1..], t);
      EligibleHasText(es[0]);
      assert forall e :: e in es <==> e == es[0] || e in es[1..];
    }
  }

  lemma WorthIff(d: Document, e: Entry)
    ensures Worth(d, e) <==> e in Candidates(d) && Eligible(e)
  {
    hide Lower, Trim;
    SummaryMembers(d.raw, e);
  }

  lemma MentionsIff(d: Document, t: string)
    ensures Mentions(d, t) <==> t in Texts(Candidates(d))
  {
    hide Eligible, Candidates, Worth, Trim;
    TextsMembers(Candidates(d), t);
    forall e ensures Worth(d, e) <==> e in Candidates(d) && Eligible(e) { WorthIff(d, e); }
    forall e ensures Worth(d, e) ==> e.value.Printable? { EligibleHasText(e); }
  }

  ghost predicate Differ(texts: seq<string>) {
    forall i, j :: 0 <= i < j < |texts| ==> Lower(texts[i]) != Lower(texts[j])
  }

  /** No two of the missing texts are the same but for case. */
  lemma {:induction false} MissingDiffer(texts: seq<string>, low: string, seen: set<string>)
    ensures Differ(MissingFrom(texts, low, seen))
  {
    hide Lower, Contains;
    if texts != [] {
      var l := Lower(texts[0]);
      if l in seen || Contains(low, l) {
        MissingDiffer(texts[1..], low, seen);
      } else {
        var rest := MissingFrom(texts[1..], low, seen + {l});
        MissingDiffer(texts[1..], low, seen + {l});
        MissingAsSet(texts[1..], low, seen + {l});
        forall j | 0 <= j < |rest| ensures Lower(rest[j]) != l { assert rest[j] in rest; }
        assert MissingFrom(texts, low, seen) == [texts[0]] + rest;
      }
    }
  }

  /** These texts are what a run adds: texts of the document's fields that its search text lacks, no
      two the same but for case, at most sixty, and all of them if fewer. */
  ghost predicate Adds(d: Document, added: seq<string>) {
    && |added| <= 60
    && (forall i :: 0 <= i < |added| ==> Mentions(d, added[i]) && !Contains(Lower(d.searchText), Lower(added[i])))
    && Differ(added)
    && (|added| < 60 ==> forall t :: Mentions(d, t) ==>
          Contains(Lower(d.searchText), Lower(t)) || exists i :: 0 <= i < |added| && Lower(added[i]) == Lower(t))
  }

  lemma MissingIsAdded(d: Document)
    ensures Adds(d, Capped(Missing(Texts(Candidates(d)), d.searchText)))
  {
    hide Lower, Contains, Candidates, Texts, Mentions, Missing, MissingFrom, Forms;
    var texts, low := Texts(Candidates(d)), Lower(d.searchText);
    var missing := Missing(texts, d.searchText);
    var added := Capped(missing);
    MissingIs(texts, d.searchText);
    MissingAsSet(texts, low, {});
    MissingDiffer(texts, low, {});
    forall i | 0 <= i < |added| ensures Mentions(d, added[i]) && !Contains(low, Lower(added[i])) {
      assert added[i] == missing[i] && missing[i] in missing;
      MentionsIff(d, added[i]);
    }
    if |added| < 60 {
      forall t | Mentions(d, t) && !Contains(low, Lower(t))
        ensures exists i :: 0 <= i < |added| && Lower(added[i]) == Lower(t)
      {
        MentionsIff(d, t);
        FormsHave(texts, low, {}, t);
        var u :| u in missing && Lower(u) == Lower(t);
      }
    }
  }

  lemma FormsHave(texts: seq<string>, low: string, seen: set<string>, t: string)
    requires t in texts && Lower(t) !in seen && !Contains(low, Lower(t))
    ensures Lower(t) in Forms(texts, low, seen)
  {
    hide Lower, Contains;
  }

  /** What one run does to a document: such texts are appended, separated by bars, and the whole is
      cut to 8192 characters; without any the search text stays. */
  lemma RunOnFacts(d: Document) returns (added: seq<string>)
    ensures Adds(d, added)
    ensures var s, joined := Run(Texts(Candidates(d)), d.searchText), Join(added, " | ");
      var whole := if d.searchText == "" then joined else d.searchText + " | " + joined;
      s == if added == [] then d.searchText else if |whole| > 8192 then whole[..8192] else whole
  {
    hide Adds, Candidates, Texts, Missing, Join;
    MissingIsAdded(d);
    added := Capped(Missing(Texts(Candidates(d)), d.searchText));
  }

  /** When running twice is the same as running once: the first run fills the text, or what the
      cap kept out happens to occur in the text it wrote. */
  lemma IdempotentIff(texts: seq<string>, existing: string)
    requires forall t :: t in texts ==> t != ""
    ensures var added := Capped(Missing(texts, existing));
      var merged := Extended(existing, added);
      Run(texts, Run(texts, existing)) == Run(texts, existing) <==>
        || added == []
        || |merged| >= MAX_LENGTH
        || forall t :: t in Missing(texts, existing)[|added|..] ==> Contains(Lower(merged), Lower(t))
  {
    hide Contains, Lower, MissingFrom, Extended;
    var added := Capped(Missing(texts, existing));
    var merged := Extended(existing, added);
    FixedIff(texts, existing);
    FixedIff(texts, Run(texts, existing));
    if added != [] && |merged| < MAX_LENGTH {
      var rest := Missing(texts, existing)[|added|..];
      MissingAsSet(texts, Lower(merged), {});
      MissingAsSet(texts, Lower(existing), {});
      if Missing(texts, merged) != [] {
        var t := Missing(texts, merged)[0];
        StillMissing(texts, existing, t);
        var u :| u in rest && Lower(u) == Lower(t);
        assert !Contains(Lower(merged), Lower(u));
      } else {
        forall t | t in rest ensures Contains(Lower(merged), Lower(t)) {
          assert t in texts;
          assert Contains(Lower(merged), Lower(t)) || Lower(t) in LoweredSet(Missing(texts, merged));
        }
      }
    }
  }

  /** Where the claim of idempotence holds: with at most 60 missing values two runs equal one. */
  lemma FewMissingIdempotent(texts: seq<string>, existing: string)
    requires forall t :: t in texts ==> t != ""
    requires |Missing(texts, existing)| <= 60
    ensures Run(texts, Run(texts, existing)) == Run(texts, existing)
  {
    hide Missing, Run;
    RunsConverge(texts, existing, 1, 1);
    assert Runs(texts, existing, 0) == existing;
    assert Runs(texts, existing, 1) == Run(texts, existing);
  }

  lemma {:induction false} TextsAreNotEmpty(es: seq<Entry>)
    ensures forall t :: t in Texts(es) ==> t != ""
  {
    if es != [] { TextsAreNotEmpty(es[1..]); }
  }

  /** For every document: enough runs reach a text that further runs leave alone, that starts with
      the old one, and that is full or holds every eligible value. */
  lemma DocumentConverges(d: Document, n: nat, t: string)
    requires n * 60 >= |Missing(Texts(Candidates(d)), d.searchText)| && t in Texts(Candidates(d))
    ensures var last := Runs(Texts(Candidates(d)), d.searchText, n);
      && Run(Texts(Candidates(d)), last) == last
      && (|d.searchText| <= 8192 ==> d.searchText <= last)
      && (|last| == 8192 || Contains(Lower(last), Lower(t)))
  {
    hide Candidates, Run, Missing, Contains, Lower;
    var texts := Texts(Candidates(d));
    TextsAreNotEmpty(Candidates(d));
    RunsConverge(texts, d.searchText, n, 1);
    var last := Runs(texts, d.searchText, n);
    assert Run(texts, last) == Runs(texts, d.searchText, n + 1);
    FixedTextIsComplete(texts, last, t);
    PrefixNeverChanges(texts, d.searchText, n);
    if |d.searchText| <= MAX_LENGTH { assert d.searchText[..|d.searchText|] == d.searchText; }
  }

  // ---- one run is not enough for 61 values ---------------------------------------------

  /** One-character texts with the codes 200 + k to 260. */
  function Letters(k: nat): seq<string>
    requires k <= 61
    decreases 61 - k
  {
    if k == 61 then [] else [[(200 + k) as char]] + Letters(k + 1)
  }

  lemma {:induction false} LettersAreMissing(k: nat, seen: set<string>)
    requires k <= 61 && forall s :: s in seen ==> |s| == 1 && s[0] < (200 + k) as char
    ensures MissingFrom(Letters(k), "", seen) == Letters(k)
    decreases 61 - k
  {
    hide Contains;
    if k < 61 {
      var c := (200 + k) as char;
      assert Lower([c]) == [c];
      assert !Contains("", [c]) by { NotInEmpty([c]); }
      LettersAreMissing(k + 1, seen + {[c]});
    }
  }

  lemma NotInEmpty(needle: string)
    requires needle != ""
    ensures !Contains("", needle)
  {}

  lemma {:induction false} LettersAt(k: nat)
    requires k <= 61
    ensures |Letters(k)| == 61 - k
    ensures forall i :: 0 <= i < 61 - k ==> Letters(k)[i] == [(200 + k + i) as char]
    decreases 61 - k
  {
    if k < 61 { LettersAt(k + 1); }
  }

  lemma {:induction false} JoinAvoids(parts: seq<string>, c: char)
    requires c != ' ' && c != '|' && forall k :: 0 <= k < |parts| ==> c !in parts[k]
    ensures c !in Join(parts, SEPARATOR)
  {
    if |parts| > 1 { JoinAvoids(parts[1..], c); }
  }

  lemma NotContained(hay: string, c: char)
    requires c !in hay && c > 'z'
    ensures !Contains(Lower(hay), [c])
  {
    var low := Lower(hay);
    forall at | 0 <= at <= |low| ensures !Occurs([c], low, at) {
      if at < |low| {
        assert low[at] == LowerChar(hay[at]) && hay[at] in hay;
        assert low[at..at + 1] == [low[at]];
      }
    }
  }

  /** 61 new values: the second run still changes the text, so the script is not idempotent. */
  lemma SecondRunStillAdds()
    ensures Run(Letters(0), Run(Letters(0), "")) != Run(Letters(0), "")
  {
    LettersAreMissing(0, {});
    LettersAt(0);
    LeftOver(Letters(0), 260 as char);
  }

  lemma LeftOver(texts: seq<string>, c: char)
    requires |texts| == 61 && MissingFrom(texts, "", {}) == texts && c > '~' && texts[60] == [c]
    requires forall i :: 0 <= i < 61 ==> |texts[i]| == 1
    requires forall i :: 0 <= i < 60 ==> texts[i][0] != c
    ensures Run(texts, Run(texts, "")) != Run(texts, "")
  {
    hide Contains, MissingFrom, Run, Join;
    assert Lower("") == "";
    var added := Capped(texts);
    var merged := Extended("", added);
    assert forall k :: 0 <= k < |added| ==> added[k] == texts[k] && c !in added[k];
    JoinAvoids(added, c);
    NotContained(merged, c);
    ShortJoin(added);
    assert texts[60] in texts[60..];
    assert Lower([c]) == [c];
    IdempotentIff(texts, "");
  }

  lemma {:induction false} ShortJoin(parts: seq<string>)
    requires forall k :: 0 <= k < |parts| ==> |parts[k]| == 1
    ensures |Join(parts, SEPARATOR)| <= 4 * |parts|
  {
    if |parts| > 1 { ShortJoin(parts[1..]); }
  }
}
