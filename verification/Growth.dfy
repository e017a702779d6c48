/** What an append-only pass may do to the list of activities. */
module Growth {
  import opened Text
  import opened Activities

  /** A bound on what activities may hold: references, events and the ids they may point at. */
  datatype Holdings = Holdings(refs: set<string>, events: set<string>, ids: set<nat>)

  ghost function HoldingsOf(L: seq<Snap>): Holdings {
    Holdings(Evidence(Refs, L), Evidence(Events, L), Ids(L))
  }

  ghost predicate Fits(s: Snap, h: Holdings) {
    && Elems(s.body.refs) <= h.refs
    && Elems(s.body.events) <= h.events
    && forall name :: name in s.body.links ==> s.body.links[name] in h.ids
  }

  /** `s` has at least the evidence of `t`. */
  ghost predicate Holds(s: Snap, t: Snap) {
    Elems(t.body.refs) <= Elems(s.body.refs) && Elems(t.body.events) <= Elems(s.body.events)
  }

  ghost predicate Extends(before: seq<Snap>, after: seq<Snap>) {
    && |before| <= |after|
    && (forall i :: 0 <= i < |before| ==> after[i].facts == before[i].facts && Holds(after[i], before[i]))
    && Evidence(Refs, after) == Evidence(Refs, before)
    && Evidence(Events, after) == Evidence(Events, before)
    && DistinctIds(after) && LinksResolve(after)
  }

  lemma EntriesFit(L: seq<Snap>)
    requires LinksResolve(L)
    ensures forall s :: s in L ==> Fits(s, HoldingsOf(L)) && s.facts.id in HoldingsOf(L).ids
  {
    forall s | s in L ensures Fits(s, HoldingsOf(L)) {
      forall r | r in Elems(s.body.refs) ensures r in Evidence(Refs, L) { assert r in Carried(Refs, s.body); }
      forall r | r in Elems(s.body.events) ensures r in Evidence(Events, L) { assert r in Carried(Events, s.body); }
    }
  }

  /** Entrywise conditions under which a list extends another. */
  lemma ExtendsWhen(before: seq<Snap>, after: seq<Snap>)
    requires |before| <= |after| && LinksResolve(before) && DistinctIds(after)
    requires forall i :: 0 <= i < |before| ==> after[i].facts == before[i].facts && Holds(after[i], before[i])
    requires forall i :: 0 <= i < |after| ==> Fits(after[i], HoldingsOf(before))
    ensures Extends(before, after)
  {
    forall c ensures Evidence(c, after) == Evidence(c, before) { SameEvidence(before, after, c); }
    assert Ids(before) <= Ids(after) by {
      forall id | id in Ids(before) ensures id in Ids(after) {
        var s :| s in before && s.facts.id == id;
        var i :| 0 <= i < |before| && before[i] == s;
        assert after[i] in after;
      }
    }
    forall s, name | s in after && name in s.body.links ensures s.body.links[name] in Ids(after) {
      assert Fits(s, HoldingsOf(before));
    }
  }

  lemma SameEvidence(before: seq<Snap>, after: seq<Snap>, c: Channel)
    requires |before| <= |after|
    requires forall i :: 0 <= i < |before| ==> Holds(after[i], before[i])
    requires forall i :: 0 <= i < |after| ==> Fits(after[i], HoldingsOf(before))
    ensures Evidence(c, after) == Evidence(c, before)
  {
    forall r | r in Evidence(c, before) ensures r in Evidence(c, after) {
      var s :| s in before && r in Carried(c, s.body);
      var i :| 0 <= i < |before| && before[i] == s;
      assert r in CarriedSet(c, after[i].body);
      assert after[i] in after;
    }
    forall r | r in Evidence(c, after) ensures r in Evidence(c, before) {
      var s :| s in after && r in Carried(c, s.body);
      assert Fits(s, HoldingsOf(before)) && r in CarriedSet(c, s.body);
    }
  }

  lemma ExtendsTransitive(a: seq<Snap>, b: seq<Snap>, c: seq<Snap>)
    requires Extends(a, b) && Extends(b, c)
    ensures Extends(a, c)
  {}

  lemma ExtendsReflexive(a: seq<Snap>)
    requires DistinctIds(a) && LinksResolve(a)
    ensures Extends(a, a)
  {}
}
