/** The registry pass on the recorded facts: between which entries evidence may step, that it does
    step there, and what a taker records. */
module RegistryScope {
  import opened Text
  import opened Activities
  import opened Greedy
  import opened Registry
  import opened Provenance

  /** The path or command a persistence entry points at. */
  function PointsAt(f: Facts): string {
    Normalized(
      if Field(f, "path") != "" then Field(f, "path")
      else if Field(f, "command") != "" then Field(f, "command")
      else if Field(f, "image_path") != "" then Field(f, "image_path")
      else Field(f, "service_dll"))
  }

  /** The path or command an execution ran. */
  function Ran(g: Facts): string {
    Normalized(
      if Field(g, "process_path") != "" then Field(g, "process_path")
      else if Field(g, "command_line") != "" then Field(g, "command_line")
      else Field(g, "image_path"))
  }

  predicate OnePath(f: Facts, g: Facts) {
    PointsAt(f) != "" && Ran(g) != "" && (Contains(Ran(g), PointsAt(f)) || Contains(PointsAt(f), Ran(g)))
  }

  predicate OneService(f: Facts, g: Facts) {
    Normalized(Field(f, "service_name")) == Normalized(Field(g, "service_name")) != ""
  }

  /** The host is the same, or one of them is not known. */
  predicate OneHost(f: Facts, g: Facts) {
    || Normalized(HostText(f)) == Normalized(HostText(g))
    || Normalized(HostText(f)) == "" || Normalized(HostText(g)) == ""
  }

  /** A persistence entry and something else started from it, on one host and within half an hour
      as far as both are known. */
  predicate Starts(f: Facts, g: Facts) {
    && f.kind in {"persistence", "service_modified"}
    && g.kind in {"program_execution", "powershell_execution", "service_created", "service_modified"}
    && f.id != g.id && OneHost(f, g)
    && (!f.stamp.GoodStamp? || !g.stamp.GoodStamp? || Apart(f, g, 1800))
    && (OnePath(f, g) || OneService(f, g))
  }

  lemma FirstOfFour(f: Facts)
    ensures PathHint(f) == PointsAt(f) && StartedPath(f) == Ran(f)
  {
    hide Field, Normalized;
    FieldsInOrder(f, "path", ["command", "image_path", "service_dll"]);
    FieldsInOrder(f, "command", ["image_path", "service_dll"]);
    FieldsInOrder(f, "image_path", ["service_dll"]);
    FieldsInOrder(f, "service_dll", []);
    FieldsInOrder(f, "process_path", ["command_line", "image_path"]);
    FieldsInOrder(f, "command_line", ["image_path"]);
    FieldsInOrder(f, "image_path", []);
    assert ["path"] + ["command", "image_path", "service_dll"] == ["path", "command", "image_path", "service_dll"];
    assert ["command"] + ["image_path", "service_dll"] == ["command", "image_path", "service_dll"];
    assert ["image_path"] + ["service_dll"] == ["image_path", "service_dll"];
    assert ["process_path"] + ["command_line", "image_path"] == ["process_path", "command_line", "image_path"];
    assert ["command_line"] + ["image_path"] == ["command_line", "image_path"];
    assert ["service_dll"] + [] == ["service_dll"] && ["image_path"] + [] == ["image_path"];
  }

  lemma FieldsInOrder(f: Facts, name: string, names: seq<string>)
    ensures FirstField(f, [name] + names) == if Field(f, name) != "" then Field(f, name) else FirstField(f, names)
    ensures FirstField(f, []) == ""
  {
    assert ([name] + names)[1..] == names;
  }

  lemma ContainsEqual(a: string)
    ensures Contains(a, a)
  {
    ContainsSelf(a);
  }

  lemma TakesIff(f: Facts, g: Facts)
    ensures Takes(f, g, 1800) <==> Starts(f, g)
  {
    hide Field, Normalized, Contains, PathHint, StartedPath, PointsAt, Ran, HostText;
    FirstOfFour(f);
    FirstOfFour(g);
    ContainsEqual(Ran(g));
  }

  /** Evidence does step between such entries, and arrives along no other steps. */
  lemma RegistryOnFacts(L: seq<Snap>, c: Channel, i: nat, r: string)
    requires i < |L|
    ensures (exists k: nat :: k < |L| && Starts(L[i].facts, L[k].facts) && r in Carried(c, L[k].body))
      ==> r in Carried(c, Correlated(L, 1800)[i].body)
    ensures r in Carried(c, Correlated(L, 1800)[i].body) ==>
      exists p: seq<nat> :: Stepping(L, p) && p[0] == i && r in Carried(c, L[p[|p| - 1]].body)
  {
    hide Takes, Starts, Spread, Carried;
    SpreadSandwich(L, 1800, c, i, r);
    forall k: nat | k < |L| ensures Takes(L[i].facts, L[k].facts, 1800) <==> Starts(L[i].facts, L[k].facts) {
      TakesIff(L[i].facts, L[k].facts);
    }
    if r in Carried(c, Correlated(L, 1800)[i].body) {
      var k :| 0 <= k < |L| && Reaches(L, 1800, i, k) && r in Carried(c, L[k].body);
      var p :| Route(L, 1800, p) && p[0] == i && p[|p| - 1] == k;
      RouteSteps(L, p);
    }
  }

  /** A route whose every step is one that evidence may take. */
  ghost predicate Stepping(L: seq<Snap>, p: seq<nat>) {
    && p != []
    && (forall n :: 0 <= n < |p| ==> p[n] < |L|)
    && forall n :: 0 <= n < |p| - 1 ==> Starts(L[p[n]].facts, L[p[n + 1]].facts)
  }

  lemma RouteSteps(L: seq<Snap>, p: seq<nat>)
    requires Route(L, 1800, p)
    ensures Stepping(L, p)
  {
    hide Takes, Starts;
    forall n | 0 <= n < |p| - 1 ensures Starts(L[p[n]].facts, L[p[n + 1]].facts) {
      TakesIff(L[p[n]].facts, L[p[n + 1]].facts);
    }
  }

  /** An entry that may take from nothing is left as it was; one that takes is marked, with a
      confidence of at least 0.9, or 0.94 where the paths match. */
  lemma TakerIsMarked(L: seq<Snap>, i: nat)
    requires i < |L|
    ensures var b := Correlated(L, 1800)[i].body;
      && ((forall k: nat :: k < |L| ==> !Starts(L[i].facts, L[k].facts)) ==> Correlated(L, 1800)[i] == L[i])
      && forall k: nat :: k < |L| && Starts(L[i].facts, L[k].facts) ==>
           && "registry_correlated" in b.tags && b.confidence >= 0.9
           && (OnePath(L[i].facts, L[k].facts) ==> b.confidence >= 0.94)
           && forall r :: r in L[k].body.reasons ==> r in b.reasons
  {
    hide Takes, Starts, Spread, OnePath;
    forall k: nat | k < |L| ensures Takes(L[i].facts, L[k].facts, 1800) <==> Starts(L[i].facts, L[k].facts) {
      TakesIff(L[i].facts, L[k].facts);
    }
    if forall k: nat :: k < |L| ==> !Starts(L[i].facts, L[k].facts) {
      SpreadUntouched(L, 1800, i, 0, |L|);
      SpreadStart(L, 1800, i);
    }
    forall k: nat | k < |L| && Starts(L[i].facts, L[k].facts)
      ensures Marked(Correlated(L, 1800)[i].body, L[i].facts, L[k])
    {
      SpreadMarks(L, i, |L|, k);
    }
  }

  /** What a taker records of one source. */
  ghost predicate Marked(b: Body, f: Facts, y: Snap) {
    && "registry_correlated" in b.tags && b.confidence >= 0.9
    && (OnePath(f, y.facts) ==> b.confidence >= 0.94)
    && forall r :: r in y.body.reasons ==> r in b.reasons
  }

  lemma {:induction false} SpreadMarks(L: seq<Snap>, i: nat, g: nat, k: nat)
    requires i < |L| && k < g <= |L| && Takes(L[i].facts, L[k].facts, 1800)
    ensures Marked(Spread(L, 1800, i, g).body, L[i].facts, L[k])
    decreases g
  {
    hide Takes, TakeFrom, Marked;
    SpreadStep(L, 1800, i, g - 1);
    SpreadFacts(L, 1800, i, g - 1);
    var x := Spread(L, 1800, i, g - 1);
    if k < g - 1 {
      SpreadMarks(L, i, g - 1, k);
      TakeKeepsMark(x, if g - 1 < i then Spread(L, 1800, g - 1, |L|) else L[g - 1], L[k]);
    } else {
      ReasonsStay(L, k);
      SpreadFacts(L, 1800, k, |L|);
      TakeMarks(x, if k < i then Spread(L, 1800, k, |L|) else L[k], L[k]);
    }
  }

  lemma {:induction false} ReasonsStayUpTo(L: seq<Snap>, i: nat, g: nat)
    requires i < |L| && g <= |L|
    ensures forall r :: r in L[i].body.reasons ==> r in Spread(L, 1800, i, g).body.reasons
    decreases g
  {
    hide Takes, TakeFrom;
    if g > 0 {
      ReasonsStayUpTo(L, i, g - 1);
      SpreadStep(L, 1800, i, g - 1);
      TakeKeepsReasons(Spread(L, 1800, i, g - 1), if g - 1 < i then Spread(L, 1800, g - 1, |L|) else L[g - 1]);
    }
  }

  lemma ReasonsStay(L: seq<Snap>, i: nat)
    requires i < |L|
    ensures forall r :: r in L[i].body.reasons ==> r in Spread(L, 1800, i, |L|).body.reasons
  {
    ReasonsStayUpTo(L, i, |L|);
  }

  lemma TakeKeepsReasons(x: Snap, y: Snap)
    ensures forall r :: r in x.body.reasons || r in y.body.reasons ==> r in TakeFrom(x, y).body.reasons
    ensures forall r :: r in x.body.tags || r in y.body.tags || r == "registry_correlated" ==>
      r in TakeFrom(x, y).body.tags
  {
    hide SortedSet, PathMatch;
    var z := TakeFrom(x, y).body;
    assert z.reasons == MergeLists(x.body.reasons, y.body.reasons);
    assert z.tags == MergeLists(x.body.tags, y.body.tags + ["registry_correlated"]);
    assert forall r :: r in z.reasons <==> r in Elems(z.reasons);
    assert forall r :: r in z.tags <==> r in Elems(z.tags);
  }

  lemma TakeKeepsMark(x: Snap, y: Snap, source: Snap)
    requires Marked(x.body, x.facts, source)
    ensures Marked(TakeFrom(x, y).body, x.facts, source)
  {
    hide PathMatch, OnePath, MergeLists;
    TakeKeepsReasons(x, y);
  }

  lemma TakeMarks(x: Snap, y: Snap, source: Snap)
    requires y.facts == source.facts && forall r :: r in source.body.reasons ==> r in y.body.reasons
    ensures Marked(TakeFrom(x, y).body, x.facts, source)
  {
    hide PathMatch, OnePath, MergeLists;
    TakeKeepsReasons(x, y);
    PathsAgree(x.facts, y.facts);
  }

  lemma PathsAgree(f: Facts, g: Facts)
    ensures PathMatch(f, g) <==> OnePath(f, g)
  {
    hide Contains, PathHint, StartedPath, PointsAt, Ran;
    FirstOfFour(f);
    FirstOfFour(g);
    ContainsEqual(Ran(g));
  }
}
