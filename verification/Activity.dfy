/** One forensic activity: the facts that no pass changes, the body that passes rewrite, and the
    heap object holding both. */
module Activities {
  import opened Text

  /** A timestamp as stored (`text`) and, when it parses, its wall-clock microseconds and UTC offset. */
  datatype Stamp = NoStamp | BadStamp(text: string) | GoodStamp(text: string, local: int, offset: int)

  function StampText(s: Stamp): string {
    if s.NoStamp? then "" else s.text
  }

  function Instant(s: Stamp): int
    requires s.GoodStamp?
  {
    s.local - s.offset
  }

  predicate Within(s: Stamp, t: Stamp, seconds: int)
    requires s.GoodStamp? && t.GoodStamp?
  {
    var d := Instant(s) - Instant(t);
    -seconds * 1_000_000 <= d <= seconds * 1_000_000
  }

  datatype Facts = Facts(
    id: nat,
    kind: string,
    stamp: Stamp,
    host: Option<string>,
    user: Option<string>,
    fields: map<string, string>)

  /** `key_fields.get(name)`, with a missing or empty entry read as "". */
  function Field(f: Facts, name: string): string {
    if name in f.fields then f.fields[name] else ""
  }

  function HostText(f: Facts): string {
    if f.host.Some? then f.host.value else ""
  }

  /** Hosts agree unless both are known and differ: an empty host matches anything. */
  predicate HostsAgree(f: Facts, g: Facts) {
    var h, k := Normalized(HostText(f)), Normalized(HostText(g));
    h == "" || k == "" || h == k
  }

  datatype Body = Body(
    refs: seq<string>,
    events: seq<string>,
    tags: seq<string>,
    reasons: seq<string>,
    confidence: real,
    summary: string,
    sources: seq<string>,        // key_fields["correlated_sources"]
    notes: map<string, string>,  // the other key fields that passes write
    links: map<string, nat>)     // key fields that name another activity by id

  datatype Snap = Snap(facts: Facts, body: Body)

  function MaxReal(a: real, b: real): real {
    if a < b then b else a
  }

  /** `sorted(set(a + b))`. */
  function MergeLists(a: seq<string>, b: seq<string>): (r: seq<string>)
    ensures Elems(r) == Elems(a) + Elems(b)
  {
    SortedSet(a + b)
  }

  /** The assignments every correlation makes: references, events and tags of `y` join those of `x`. */
  function WithEvidence(x: Body, y: Body, extraTags: seq<string>): Body {
    x.(refs := MergeLists(x.refs, y.refs),
       events := MergeLists(x.events, y.events),
       tags := MergeLists(x.tags, y.tags + extraTags))
  }

  /** The two kinds of evidence a list carries. */
  datatype Channel = Refs | Events

  function Carried(c: Channel, b: Body): seq<string> {
    match c
    case Refs => b.refs
    case Events => b.events
  }

  ghost function CarriedSet(c: Channel, b: Body): set<string> {
    Elems(Carried(c, b))
  }

  /** Everything of one channel held anywhere in a list. */
  ghost function Evidence(c: Channel, L: seq<Snap>): set<string> {
    set s, r | s in L && r in Carried(c, s.body) :: r
  }

  ghost function Ids(L: seq<Snap>): set<nat> {
    set s | s in L :: s.facts.id
  }

  ghost predicate DistinctIds(L: seq<Snap>) {
    forall i, j :: 0 <= i < j < |L| ==> L[i].facts.id != L[j].facts.id
  }

  /** Every cross-reference stored in the list names a member of the list. */
  ghost predicate LinksResolve(L: seq<Snap>) {
    forall s, name :: s in L && name in s.body.links ==> s.body.links[name] in Ids(L)
  }

  class Activity {
    const facts: Facts
    var refs: seq<string>
    var events: seq<string>
    var tags: seq<string>
    var reasons: seq<string>
    var confidence: real
    var summary: string
    var sources: seq<string>
    var notes: map<string, string>
    var links: map<string, nat>

    function View(): Snap
      reads this
    {
      Snap(facts, Body(refs, events, tags, reasons, confidence, summary, sources, notes, links))
    }

    constructor (s: Snap)
      ensures View() == s
    {
      facts := s.facts;
      refs, events, tags, reasons := s.body.refs, s.body.events, s.body.tags, s.body.reasons;
      confidence, summary, sources := s.body.confidence, s.body.summary, s.body.sources;
      notes, links := s.body.notes, s.body.links;
    }

    method TakeEvidence(other: Activity, extraTags: seq<string>)
      modifies this
      ensures View() == Snap(facts, old(WithEvidence(View().body, other.View().body, extraTags)))
    {
      refs := MergeLists(refs, other.refs);
      events := MergeLists(events, other.events);
      tags := MergeLists(tags, other.tags + extraTags);
    }
  }

  function Views(s: seq<Activity>): (r: seq<Snap>)
    reads s
    ensures |r| == |s| && forall i :: 0 <= i < |s| ==> r[i] == s[i].View()
  {
    seq(|s|, i requires 0 <= i < |s| reads s => s[i].View())
  }

  lemma ViewsConcat(a: seq<Activity>, b: seq<Activity>)
    ensures Views(a + b) == Views(a) + Views(b)
  {}

  /** No two list entries share an id; in particular they are different objects. */
  ghost predicate DistinctActivities(s: seq<Activity>) {
    forall i, j :: 0 <= i < j < |s| ==> s[i].facts.id != s[j].facts.id
  }
}
