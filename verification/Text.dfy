/** String helpers shared by the components: Python's order on strings, `sorted(set(...))`,
    lower-casing as a per-character map, substring search, and a stable sort on a string key. */
module Text {

  datatype Option<+T> = None | Some(value: T)

  function Elems<T(==)>(s: seq<T>): set<T> {
    set x | x in s
  }

  lemma NoElems<T>(s: seq<T>)
    ensures Elems(s) == {} ==> s == []
  {
    if s != [] { assert s[0] in Elems(s); }
  }

  lemma {:induction false} SubsetSize<T>(a: set<T>, b: set<T>)
    requires a <= b
    ensures |a| <= |b|
  {
    if a != {} {
      var x :| x in a;
      SubsetSize(a - {x}, b - {x});
    }
  }

  // ---- code point order -------------------------------------------------

  predicate LexLess(a: string, b: string) {
    b != [] && (a == [] || a[0] < b[0] || (a[0] == b[0] && LexLess(a[1..], b[1..])))
  }

  lemma {:induction false} LexIrreflexive(a: string)
    ensures !LexLess(a, a)
  {
    if a != [] { LexIrreflexive(a[1..]); }
  }

  lemma {:induction false} LexTransitive(a: string, b: string, c: string)
    requires LexLess(a, b) && LexLess(b, c)
    ensures LexLess(a, c)
  {
    if a != [] && a[0] == b[0] && b[0] == c[0] { LexTransitive(a[1..], b[1..], c[1..]); }
  }

  lemma {:induction false} LexConnected(a: string, b: string)
    ensures LexLess(a, b) || a == b || LexLess(b, a)
  {
    if a != [] && b != [] && a[0] == b[0] {
      LexConnected(a[1..], b[1..]);
      assert a == [a[0]] + a[1..] && b == [b[0]] + b[1..];
    }
  }

  lemma LexAsymmetric(a: string, b: string)
    requires LexLess(a, b)
    ensures !LexLess(b, a)
  {
    if LexLess(b, a) {
      LexTransitive(a, b, a);
      LexIrreflexive(a);
    }
  }

  /** Two strings with a common prefix compare as their remainders do. */
  lemma {:induction false} LexCommonPrefix(p: string, a: string, b: string)
    ensures LexLess(p + a, p + b) == LexLess(a, b)
  {
    if p == [] {
      assert p + a == a && p + b == b;
    } else {
      assert (p + a)[1..] == p[1..] + a && (p + b)[1..] == p[1..] + b;
      LexCommonPrefix(p[1..], a, b);
    }
  }

  // ---- sorted(set(...)) -------------------------------------------------

  ghost predicate StrictlySorted(s: seq<string>) {
    forall i, j :: 0 <= i < j < |s| ==> LexLess(s[i], s[j])
  }

  function InsertUnique(x: string, s: seq<string>): (r: seq<string>)
    requires StrictlySorted(s)
    ensures StrictlySorted(r)
    ensures Elems(r) == Elems(s) + {x}
  {
    if s == [] then [x]
    else if x == s[0] then s
    else if LexLess(x, s[0]) then
      assert forall j :: 0 <= j < |s| ==> LexLess(x, s[j]) by {
        forall j | 0 <= j < |s| ensures LexLess(x, s[j]) {
          if j > 0 { LexTransitive(x, s[0], s[j]); }
        }
      }
      [x] + s
    else
      assert LexLess(s[0], x) by { LexConnected(x, s[0]); }
      var t := InsertUnique(x, s[1..]);
      assert Elems(s) == {s[0]} + Elems(s[1..]);
      assert forall y :: y in t ==> LexLess(s[0], y) by {
        forall y | y in t ensures LexLess(s[0], y) {
          assert y in Elems(t);
        }
      }
      assert Elems([s[0]] + t) == {s[0]} + Elems(t);
      [s[0]] + t
  }

  /** Python's `sorted(set(xs))`. */
  function SortedSet(xs: seq<string>): (r: seq<string>)
    ensures StrictlySorted(r)
    ensures Elems(r) == Elems(xs)
  {
    if xs == [] then [] else
    assert Elems(xs) == {xs[0]} + Elems(xs[1..]);
    InsertUnique(xs[0], SortedSet(xs[1..]))
  }

  /** A strictly sorted list is determined by its elements, so the order in which evidence
      is merged never shows in the merged list. */
  lemma {:induction false} SortedSetUnique(a: seq<string>, b: seq<string>)
    requires StrictlySorted(a) && StrictlySorted(b) && Elems(a) == Elems(b)
    ensures a == b
  {
    if a == [] {
      NoElems(b);
    } else {
      assert a[0] in Elems(b) && Elems(b) != {};
      assert b != [];
      assert b[0] in Elems(a);
      if a[0] != b[0] {
        var i :| 0 <= i < |b| && b[i] == a[0];
        var j :| 0 <= j < |a| && a[j] == b[0];
        LexAsymmetric(b[0], a[0]);
        assert false;
      }
      forall x | x in a[1..] ensures x != a[0] && x in b[1..] {
        LexIrreflexive(a[0]);
        assert x in Elems(b);
      }
      forall x | x in b[1..] ensures x in a[1..] {
        LexIrreflexive(b[0]);
        assert x in Elems(a);
      }
      assert Elems(a[1..]) == Elems(b[1..]);
      SortedSetUnique(a[1..], b[1..]);
      assert a == [a[0]] + a[1..] && b == [b[0]] + b[1..];
    }
  }

  // ---- case, blanks, substrings -----------------------------------------

  function LowerChar(c: char): char {
    if 'A' <= c <= 'Z' then ((c as int) + 32) as char else c
  }

  function Lower(s: string): (r: string)
    ensures |r| == |s|
    ensures forall i :: 0 <= i < |s| ==> r[i] == LowerChar(s[i])
  {
    if s == [] then [] else [LowerChar(s[0])] + Lower(s[1..])
  }

  lemma LowerConcat(a: string, b: string)
    ensures Lower(a + b) == Lower(a) + Lower(b)
  {}

  predicate Blank(c: char) {
    c == ' ' || c == '\t' || c == '\n' || c == '\r'
  }

  function TrimLeft(s: string): string {
    if s != [] && Blank(s[0]) then TrimLeft(s[1..]) else s
  }

  function TrimRight(s: string): string {
    if s != [] && Blank(s[|s| - 1]) then TrimRight(s[..|s| - 1]) else s
  }

  function Trim(s: string): string {
    TrimRight(TrimLeft(s))
  }

  /** `_normalized_name`: strip, then lower-case. */
  function Normalized(s: string): string {
    Lower(Trim(s))
  }

  predicate Occurs(needle: string, hay: string, at: int) {
    0 <= at && at + |needle| <= |hay| && hay[at..at + |needle|] == needle
  }

  predicate Contains(hay: string, needle: string) {
    exists at :: 0 <= at <= |hay| && Occurs(needle, hay, at)
  }

  lemma ContainsIn(pre: string, mid: string, post: string, needle: string)
    requires Contains(mid, needle)
    ensures Contains(pre + mid + post, needle)
  {
    var at :| 0 <= at <= |mid| && Occurs(needle, mid, at);
    var hay := pre + mid + post;
    assert hay[|pre| + at..|pre| + at + |needle|] == mid[at..at + |needle|];
    assert Occurs(needle, hay, |pre| + at);
  }

  lemma ContainsSelf(s: string)
    ensures Contains(s, s)
  {
    assert s[0..0 + |s|] == s;
    assert Occurs(s, s, 0);
  }

  /** `sep.join(parts)`. */
  function Join(parts: seq<string>, sep: string): string {
    if parts == [] then ""
    else if |parts| == 1 then parts[0]
    else parts[0] + sep + Join(parts[1..], sep)
  }

  // ---- stable sort on a string key: `sorted(xs, key=...)` -----------------

  function InsertByKey<T>(s: seq<T>, x: T, key: T -> string): seq<T> {
    if s != [] && LexLess(key(x), key(s[|s| - 1]))
    then InsertByKey(s[..|s| - 1], x, key) + [s[|s| - 1]]
    else s + [x]
  }

  function StableSort<T>(xs: seq<T>, key: T -> string): seq<T> {
    if xs == [] then [] else InsertByKey(StableSort(xs[..|xs| - 1], key), xs[|xs| - 1], key)
  }

  ghost predicate SortedByKey<T>(s: seq<T>, key: T -> string) {
    forall i, j :: 0 <= i < j < |s| ==> !LexLess(key(s[j]), key(s[i]))
  }

  /** The elements of `s` whose key is `k`, in order. */
  ghost function WithKey<T>(s: seq<T>, key: T -> string, k: string): seq<T> {
    if s == [] then []
    else WithKey(s[..|s| - 1], key, k) + if key(s[|s| - 1]) == k then [s[|s| - 1]] else []
  }

  lemma {:induction false} InsertByKeyElems<T>(s: seq<T>, x: T, key: T -> string)
    ensures multiset(InsertByKey(s, x, key)) == multiset(s) + multiset{x}
    ensures forall y :: y in InsertByKey(s, x, key) ==> y == x || y in s
  {
    if s != [] && LexLess(key(x), key(s[|s| - 1])) {
      assert s == s[..|s| - 1] + [s[|s| - 1]];
      InsertByKeyElems(s[..|s| - 1], x, key);
    }
  }

  lemma {:induction false} InsertByKeySorted<T>(s: seq<T>, x: T, key: T -> string)
    requires SortedByKey(s, key)
    ensures SortedByKey(InsertByKey(s, x, key), key)
  {
    if s != [] {
      var front, last := s[..|s| - 1], s[|s| - 1];
      if LexLess(key(x), key(last)) {
        InsertByKeySorted(front, x, key);
        InsertByKeyElems(front, x, key);
        var t := InsertByKey(front, x, key);
        LexAsymmetric(key(x), key(last));
        forall i | 0 <= i < |t| ensures !LexLess(key(last), key(t[i])) {
          assert t[i] == x || t[i] in front;
        }
      } else {
        forall i | 0 <= i < |s| ensures !LexLess(key(x), key(s[i])) {
          LexConnected(key(s[i]), key(last));
          if i < |s| - 1 && LexLess(key(x), key(s[i])) && LexLess(key(s[i]), key(last)) {
            LexTransitive(key(x), key(s[i]), key(last));
          }
        }
      }
    }
  }

  lemma {:induction false} InsertByKeyStable<T>(s: seq<T>, x: T, key: T -> string, k: string)
    ensures WithKey(InsertByKey(s, x, key), key, k) == WithKey(s, key, k) + if key(x) == k then [x] else []
  {
    var r := InsertByKey(s, x, key);
    if s != [] && LexLess(key(x), key(s[|s| - 1])) {
      var front, last := s[..|s| - 1], s[|s| - 1];
      InsertByKeyStable(front, x, key, k);
      var t := InsertByKey(front, x, key);
      assert r[..|r| - 1] == t;
      LexIrreflexive(k);
    } else {
      assert r[..|r| - 1] == s;
    }
  }

  lemma InsertByKeyAtEnd<T>(s: seq<T>, x: T, key: T -> string)
    requires SortedByKey(s + [x], key)
    ensures InsertByKey(s, x, key) == s + [x]
  {
    if s != [] {
      var t := s + [x];
      assert t[|s|] == x && t[|s| - 1] == s[|s| - 1];
    }
  }

  /** The sort keeps every element, orders them by key and leaves equal keys in their
      original order; a list already in order is not touched. */
  lemma {:induction false} StableSortCorrect<T>(xs: seq<T>, key: T -> string, k: string)
    ensures SortedByKey(StableSort(xs, key), key)
    ensures multiset(StableSort(xs, key)) == multiset(xs)
    ensures WithKey(StableSort(xs, key), key, k) == WithKey(xs, key, k)
    ensures SortedByKey(xs, key) ==> StableSort(xs, key) == xs
  {
    if xs != [] {
      var front, last := xs[..|xs| - 1], xs[|xs| - 1];
      assert xs == front + [last];
      StableSortCorrect(front, key, k);
      var sorted := StableSort(front, key);
      InsertByKeyElems(sorted, last, key);
      InsertByKeySorted(sorted, last, key);
      InsertByKeyStable(sorted, last, key, k);
      if SortedByKey(xs, key) {
        assert forall i :: 0 <= i < |front| ==> front[i] == xs[i];
        InsertByKeyAtEnd(front, last, key);
      }
    }
  }
}
