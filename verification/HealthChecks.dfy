/** `_store_artifact_health_check`: a list of health checks with one row per artifact, cut to the
    100 most recent. */
module HealthChecks {

  datatype Row = Row(key: string, payload: string)

  const CAPACITY := 100

  function Without(rows: seq<Row>, key: string): seq<Row> {
    if rows == [] then []
    else (if rows[0].key != key then [rows[0]] else []) + Without(rows[1..], key)
  }

  /** `rows[-n:]`. */
  function Last<T>(rows: seq<T>, n: nat): seq<T> {
    if |rows| <= n then rows else rows[|rows| - n..]
  }

  function Stored(rows: seq<Row>, row: Row): seq<Row> {
    Last(Without(rows, row.key) + [row], CAPACITY)
  }

  function StoredAll(rows: seq<Row>, more: seq<Row>): seq<Row> {
    if more == [] then rows else Stored(StoredAll(rows, more[..|more| - 1]), more[|more| - 1])
  }

  /** The full history seen by recency: every row that no later row with its key replaces, in the
      order in which they were stored. */
  predicate Replaced(history: seq<Row>, i: nat)
    requires i < |history|
  {
    exists j :: i < j < |history| && history[j].key == history[i].key
  }

  function LatestFrom(history: seq<Row>, i: nat): seq<Row>
    requires i <= |history|
    decreases |history| - i
  {
    if i == |history| then []
    else (if Replaced(history, i) then [] else [history[i]]) + LatestFrom(history, i + 1)
  }

  function Latest(history: seq<Row>): seq<Row> {
    LatestFrom(history, 0)
  }

  ghost predicate DistinctKeys(rows: seq<Row>) {
    forall i, j :: 0 <= i < j < |rows| ==> rows[i].key != rows[j].key
  }

  // ---- the history grows ------------------------------------------------------------

  lemma ReplacedInLonger(history: seq<Row>, row: Row, i: nat)
    requires i < |history|
    ensures Replaced(history + [row], i) <==> Replaced(history, i) || row.key == history[i].key
  {
    var longer := history + [row];
    assert longer[i] == history[i] && longer[|history|] == row;
    if Replaced(history, i) {
      var j :| i < j < |history| && history[j].key == history[i].key;
      assert longer[j] == history[j];
    }
  }

  /** A new row takes the place of the latest one with its key and goes to the end. */
  lemma {:induction false} LatestGrows(history: seq<Row>, row: Row, i: nat)
    requires i <= |history|
    ensures LatestFrom(history + [row], i) == Without(LatestFrom(history, i), row.key) + [row]
    decreases |history| - i
  {
    hide Replaced;
    var longer := history + [row];
    if i == |history| {
      assert LatestFrom(longer, i + 1) == [];
      assert !Replaced(longer, i) by { LastIsKept(longer); }
    } else {
      LatestGrows(history, row, i + 1);
      ReplacedInLonger(history, row, i);
      assert longer[i] == history[i];
      var rest := LatestFrom(history, i + 1);
      if !Replaced(history, i) {
        assert ([history[i]] + rest)[1..] == rest;
      } else {
        assert [] + rest == rest;
      }
    }
  }

  lemma LastIsKept(history: seq<Row>)
    requires history != []
    ensures !Replaced(history, |history| - 1)
  {}

  lemma {:induction false} LatestMembers(history: seq<Row>, i: nat, r: Row)
    requires i <= |history|
    ensures r in LatestFrom(history, i) ==> exists k :: i <= k < |history| && !Replaced(history, k) && history[k] == r
    decreases |history| - i
  {
    if i < |history| { LatestMembers(history, i + 1, r); }
  }

  lemma {:induction false} LatestIsDistinct(history: seq<Row>, i: nat)
    requires i <= |history|
    ensures DistinctKeys(LatestFrom(history, i))
    decreases |history| - i
  {
    if i < |history| {
      LatestIsDistinct(history, i + 1);
      var rest := LatestFrom(history, i + 1);
      if !Replaced(history, i) {
        forall k | 0 <= k < |rest| ensures rest[k].key != history[i].key {
          LatestMembers(history, i + 1, rest[k]);
        }
      }
    }
  }

  // ---- cutting early or late is the same -----------------------------------------------

  lemma {:induction false} WithoutConcat(a: seq<Row>, b: seq<Row>, key: string)
    ensures Without(a + b, key) == Without(a, key) + Without(b, key)
  {
    if a == [] {
      assert a + b == b;
    } else {
      assert (a + b)[1..] == a[1..] + b;
      WithoutConcat(a[1..], b, key);
    }
  }

  lemma {:induction false} WithoutDropsAtMostOne(rows: seq<Row>, key: string)
    requires DistinctKeys(rows)
    ensures |rows| - 1 <= |Without(rows, key)| <= |rows|
    ensures (forall k :: 0 <= k < |rows| ==> rows[k].key != key) ==> Without(rows, key) == rows
  {
    if rows != [] {
      WithoutDropsAtMostOne(rows[1..], key);
      if rows[0].key == key {
        assert forall k :: 0 <= k < |rows[1..]| ==> rows[1..][k].key != key;
      }
    }
  }

  lemma LastOfConcat<T>(a: seq<T>, b: seq<T>, n: nat)
    requires |b| >= n
    ensures Last(a + b, n) == Last(b, n)
  {
    assert (a + b)[|a + b| - n..] == b[|b| - n..];
  }

  lemma CutOfConcat(a: seq<Row>, b: seq<Row>, row: Row)
    requires |b| == CAPACITY && DistinctKeys(b)
    ensures Stored(b, row) == Last(Without(a + b, row.key) + [row], CAPACITY)
  {
    hide Without, Last;
    WithoutConcat(a, b, row.key);
    WithoutDropsAtMostOne(b, row.key);
    LastOfConcat(Without(a, row.key), Without(b, row.key) + [row], CAPACITY);
    assert Without(a, row.key) + (Without(b, row.key) + [row]) == Without(a, row.key) + Without(b, row.key) + [row];
  }

  /** Storing into the cut list gives the cut of storing into the uncut one. */
  lemma CutCommutes(rows: seq<Row>, row: Row)
    requires DistinctKeys(rows)
    ensures Stored(Last(rows, CAPACITY), row) == Last(Without(rows, row.key) + [row], CAPACITY)
  {
    if |rows| > CAPACITY {
      var cut := |rows| - CAPACITY;
      var a, b := rows[..cut], rows[cut..];
      assert rows == a + b;
      assert DistinctKeys(b);
      CutOfConcat(a, b, row);
    }
  }

  lemma {:induction false} LatestOfDistinct(rows: seq<Row>, i: nat)
    requires DistinctKeys(rows) && i <= |rows|
    ensures LatestFrom(rows, i) == rows[i..]
    decreases |rows| - i
  {
    if i < |rows| {
      LatestOfDistinct(rows, i + 1);
      assert !Replaced(rows, i);
    }
  }

  /** After any sequence of stores the list equals the 100 most recently stored distinct keys of
      the whole history, with their latest rows, in recency order. */
  lemma {:induction false} StoreRefinesHistory(rows: seq<Row>, more: seq<Row>)
    requires DistinctKeys(rows) && |rows| <= 100
    ensures StoredAll(rows, more) == Last(Latest(rows + more), 100)
    ensures DistinctKeys(StoredAll(rows, more)) && |StoredAll(rows, more)| <= 100
  {
    LatestIsDistinct(rows + more, 0);
    if more == [] {
      LatestOfDistinct(rows, 0);
      assert rows + more == rows && rows[0..] == rows;
    } else {
      var front, last := more[..|more| - 1], more[|more| - 1];
      StoreRefinesHistory(rows, front);
      assert rows + more == (rows + front) + [last];
      LatestGrows(rows + front, last, 0);
      LatestIsDistinct(rows + front, 0);
      CutCommutes(Latest(rows + front), last);
    }
  }

  // ---- as it runs ---------------------------------------------------------------------------

  lemma WithoutNothing(key: string)
    ensures Without([], key) == []
  {}

  lemma WithoutFirst(rows: seq<Row>, n: nat, key: string)
    requires n < |rows|
    ensures Without(rows[n..], key) == (if rows[n].key == key then [] else [rows[n]]) + Without(rows[n + 1..], key)
  {
    assert rows[n..][1..] == rows[n + 1..];
  }

  class Metadata {
    var healthChecks: seq<Row>

    constructor ()
      ensures healthChecks == []
    {
      healthChecks := [];
    }

    /** `_store_artifact_health_check`. */
    method Store(row: Row)
      modifies this
      ensures healthChecks == Stored(old(healthChecks), row)
    {
      var kept := Others(row.key);
      kept := kept + [row];
      healthChecks := if |kept| <= CAPACITY then kept else kept[|kept| - CAPACITY..];
    }

    method Others(key: string) returns (kept: seq<Row>)
      ensures kept == Without(healthChecks, key)
    {
      hide Without;
      kept := [];
      WithoutNothing(key);
      assert healthChecks[0..] == healthChecks;
      for n := 0 to |healthChecks|
        invariant kept + Without(healthChecks[n..], key) == Without(healthChecks, key)
      {
        WithoutFirst(healthChecks, n, key);
        if healthChecks[n].key != key { kept := kept + [healthChecks[n]]; }
      }
      assert healthChecks[|healthChecks|..] == [];
    }
  }
}
