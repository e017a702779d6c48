/** `datetime.now(timezone.utc).isoformat()`, and why comparing the printed forms compares instants. */
module IsoClock {
  import opened Text

  /** A UTC date and time with microseconds. */
  datatype Utc = Utc(year: nat, month: nat, day: nat, hour: nat, minute: nat, second: nat, micro: nat)

  predicate Leap(y: nat) {
    y % 4 == 0 && (y % 100 != 0 || y % 400 == 0)
  }

  function DaysIn(y: nat, m: nat): nat {
    if m == 2 then (if Leap(y) then 29 else 28)
    else if m == 4 || m == 6 || m == 9 || m == 11 then 30
    else 31
  }

  predicate Valid(t: Utc) {
    && 1 <= t.year <= 9999 && 1 <= t.month <= 12 && 1 <= t.day <= DaysIn(t.year, t.month)
    && t.hour < 24 && t.minute < 60 && t.second < 60 && t.micro < 1_000_000
  }

  // ---- the printed form ----------------------------------------------------------

  function Digit(d: nat): char
    requires d < 10
  {
    (48 + d) as char
  }

  /** `n` in decimal with `w` digits. */
  function Pad(n: nat, w: nat): (s: string)
    ensures |s| == w
  {
    if w == 0 then "" else Pad(n / 10, w - 1) + [Digit(n % 10)]
  }

  /** Microseconds are left out when they are zero. */
  function Fraction(micro: nat): string {
    (if micro == 0 then "" else "." + Pad(micro, 6)) + "+00:00"
  }

  function Iso(t: Utc): string {
    Pad(t.year, 4) + ("-" + (Pad(t.month, 2) + ("-" + (Pad(t.day, 2) + ("T" +
      (Pad(t.hour, 2) + (":" + (Pad(t.minute, 2) + (":" + (Pad(t.second, 2) + Fraction(t.micro)))))))))))
  }

  // ---- instants ---------------------------------------------------------------------

  function DaysBeforeYear(y: nat): nat
    requires y >= 1
  {
    var p := y - 1;
    p * 365 + p / 4 - p / 100 + p / 400
  }

  function DaysBeforeMonth(y: nat, m: nat): nat {
    if m <= 1 then 0 else DaysBeforeMonth(y, m - 1) + DaysIn(y, m - 1)
  }

  function DayNumber(t: Utc): nat
    requires t.year >= 1
  {
    DaysBeforeYear(t.year) + DaysBeforeMonth(t.year, t.month) + t.day
  }

  /** Microseconds on the time line. */
  function Instant(t: Utc): nat
    requires t.year >= 1
  {
    (((DayNumber(t) * 24 + t.hour) * 60 + t.minute) * 60 + t.second) * 1_000_000 + t.micro
  }

  // ---- the printed form orders the fields ----------------------------------------------

  /** Strings of the same width are compared before what follows them. */
  lemma {:induction false} LexFixedWidth(p: string, q: string, a: string, b: string)
    requires |p| == |q|
    ensures LexLess(p + a, q + b) <==> LexLess(p, q) || (p == q && LexLess(a, b))
  {
    if p == [] {
      assert p + a == a && q + b == b;
    } else {
      assert (p + a)[1..] == p[1..] + a && (q + b)[1..] == q[1..] + b;
      LexFixedWidth(p[1..], q[1..], a, b);
      assert p == [p[0]] + p[1..] && q == [q[0]] + q[1..];
    }
  }

  function Pow10(w: nat): nat {
    if w == 0 then 1 else 10 * Pow10(w - 1)
  }

  lemma {:induction false} PadOrder(m: nat, n: nat, w: nat)
    requires m < Pow10(w) && n < Pow10(w)
    ensures LexLess(Pad(m, w), Pad(n, w)) <==> m < n
    ensures Pad(m, w) == Pad(n, w) <==> m == n
  {
    if w > 0 {
      PadOrder(m / 10, n / 10, w - 1);
      LexFixedWidth(Pad(m / 10, w - 1), Pad(n / 10, w - 1), [Digit(m % 10)], [Digit(n % 10)]);
      assert Pad(m, w)[w - 1] == Digit(m % 10) && Pad(n, w)[w - 1] == Digit(n % 10);
      assert Pad(m, w)[..w - 1] == Pad(m / 10, w - 1) && Pad(n, w)[..w - 1] == Pad(n / 10, w - 1);
    }
  }

  /** A missing fraction sorts before every fraction because '+' sorts before '.'. */
  lemma FractionOrder(m: nat, n: nat)
    requires m < 1_000_000 && n < 1_000_000
    ensures LexLess(Fraction(m), Fraction(n)) <==> m < n
  {
    Powers();
    if m == 0 && n == 0 {
      LexIrreflexive(Fraction(0));
    } else if m == 0 || n == 0 {
      assert Fraction(0)[0] == '+';
      assert m > 0 ==> Fraction(m)[0] == '.';
      assert n > 0 ==> Fraction(n)[0] == '.';
    } else {
      PadOrder(m, n, 6);
      assert Fraction(m) == "." + (Pad(m, 6) + "+00:00") && Fraction(n) == "." + (Pad(n, 6) + "+00:00");
      LexFixedWidth(".", ".", Pad(m, 6) + "+00:00", Pad(n, 6) + "+00:00");
      LexFixedWidth(Pad(m, 6), Pad(n, 6), "+00:00", "+00:00");
      LexIrreflexive(".");
      LexIrreflexive("+00:00");
    }
  }

  lemma Powers()
    ensures Pow10(2) == 100 && Pow10(4) == 10_000 && Pow10(6) == 1_000_000
  {
    assert Pow10(1) == 10 && Pow10(2) == 100 && Pow10(3) == 1000 && Pow10(4) == 10_000 && Pow10(5) == 100_000;
  }

  /** Field by field, year first. */
  ghost predicate Before(a: Utc, b: Utc) {
    a.year < b.year || (a.year == b.year &&
    (a.month < b.month || (a.month == b.month &&
    (a.day < b.day || (a.day == b.day &&
    (a.hour < b.hour || (a.hour == b.hour &&
    (a.minute < b.minute || (a.minute == b.minute &&
    (a.second < b.second || (a.second == b.second && a.micro < b.micro)))))))))))
  }

  /** One two- or four-digit field followed by a separator. */
  lemma FieldOrder(m: nat, n: nat, w: nat, sep: string, a: string, b: string)
    requires (w == 2 && m < 100 && n < 100) || (w == 4 && m < 10_000 && n < 10_000)
    ensures LexLess(Pad(m, w) + (sep + a), Pad(n, w) + (sep + b)) <==> m < n || (m == n && LexLess(a, b))
  {
    Powers();
    PadOrder(m, n, w);
    LexFixedWidth(Pad(m, w), Pad(n, w), sep + a, sep + b);
    LexFixedWidth(sep, sep, a, b);
    LexIrreflexive(sep);
  }

  lemma IsoOrdersFields(a: Utc, b: Utc)
    requires Valid(a) && Valid(b)
    ensures LexLess(Iso(a), Iso(b)) <==> Before(a, b)
  {
    hide Pad, LexLess, Fraction;
    FractionOrder(a.micro, b.micro);
    var a6, b6 := Pad(a.second, 2) + Fraction(a.micro), Pad(b.second, 2) + Fraction(b.micro);
    FieldOrder(a.second, b.second, 2, "", Fraction(a.micro), Fraction(b.micro));
    assert "" + Fraction(a.micro) == Fraction(a.micro) && "" + Fraction(b.micro) == Fraction(b.micro);
    var a5, b5 := Pad(a.minute, 2) + (":" + a6), Pad(b.minute, 2) + (":" + b6);
    FieldOrder(a.minute, b.minute, 2, ":", a6, b6);
    var a4, b4 := Pad(a.hour, 2) + (":" + a5), Pad(b.hour, 2) + (":" + b5);
    FieldOrder(a.hour, b.hour, 2, ":", a5, b5);
    var a3, b3 := Pad(a.day, 2) + ("T" + a4), Pad(b.day, 2) + ("T" + b4);
    FieldOrder(a.day, b.day, 2, "T", a4, b4);
    var a2, b2 := Pad(a.month, 2) + ("-" + a3), Pad(b.month, 2) + ("-" + b3);
    FieldOrder(a.month, b.month, 2, "-", a3, b3);
    FieldOrder(a.year, b.year, 4, "-", a2, b2);
    assert Iso(a) == Pad(a.year, 4) + ("-" + a2) && Iso(b) == Pad(b.year, 4) + ("-" + b2);
  }

  // ---- the fields order the instants -----------------------------------------------------

  lemma {:induction false} MonthsAdvance(y: nat, m: nat, n: nat)
    requires 1 <= m < n
    ensures DaysBeforeMonth(y, m) + DaysIn(y, m) <= DaysBeforeMonth(y, n)
  {
    if m < n - 1 { MonthsAdvance(y, m, n - 1); }
  }

  lemma YearLength(y: nat)
    ensures DaysBeforeMonth(y, 13) == if Leap(y) then 366 else 365
  {
    assert DaysBeforeMonth(y, 1) == 0 && DaysBeforeMonth(y, 2) == 31;
    assert DaysBeforeMonth(y, 3) == 31 + DaysIn(y, 2);
    assert DaysBeforeMonth(y, 5) == DaysBeforeMonth(y, 3) + 61;
    assert DaysBeforeMonth(y, 7) == DaysBeforeMonth(y, 5) + 61;
    assert DaysBeforeMonth(y, 9) == DaysBeforeMonth(y, 7) + 62;
    assert DaysBeforeMonth(y, 11) == DaysBeforeMonth(y, 9) + 61;
    assert DaysBeforeMonth(y, 13) == DaysBeforeMonth(y, 11) + 61;
  }

  lemma {:induction false} YearsAdvance(y: nat, z: nat)
    requires 1 <= y < z
    ensures DaysBeforeYear(y) + DaysBeforeMonth(y, 13) <= DaysBeforeYear(z)
  {
    if y + 1 < z {
      YearsAdvance(y, z - 1);
      NextYear(z - 1);
    } else {
      NextYear(y);
    }
  }

  lemma NextYear(y: nat)
    requires y >= 1
    ensures DaysBeforeYear(y + 1) == DaysBeforeYear(y) + DaysBeforeMonth(y, 13)
  {
    hide DaysBeforeMonth, DaysBeforeYear, Leap;
    YearLength(y);
    CenturyDivides(y);
    LeapDays(y);
  }

  lemma CenturyDivides(y: nat)
    ensures (if Leap(y) then 1 else 0) ==
            (if y % 4 == 0 then 1 else 0) - (if y % 100 == 0 then 1 else 0) + (if y % 400 == 0 then 1 else 0)
  {
    if y % 400 == 0 { FourCenturies(y); }
    if y % 100 == 0 { Century(y); }
  }

  lemma FourCenturies(y: nat)
    requires y % 400 == 0
    ensures y % 100 == 0
  {
    assert y == 100 * (4 * (y / 400));
  }

  lemma Century(y: nat)
    requires y % 100 == 0
    ensures y % 4 == 0
  {
    assert y == 4 * (25 * (y / 100));
  }

  lemma LeapDays(y: nat)
    requires y >= 1
    ensures DaysBeforeYear(y + 1) == DaysBeforeYear(y) + 365 + (if y % 4 == 0 then 1 else 0)
                                     - (if y % 100 == 0 then 1 else 0) + (if y % 400 == 0 then 1 else 0)
  {
    var p, q, r := (y - 1) / 4, (y - 1) / 100, (y - 1) / 400;
    var p', q', r' := y / 4, y / 100, y / 400;
    By4(y);
    By100(y);
    By400(y);
    assert DaysBeforeYear(y) == 365 * (y - 1) + p - q + r;
    assert DaysBeforeYear(y + 1) == 365 * y + p' - q' + r';
  }

  lemma By4(y: nat)
    requires y >= 1
    ensures y / 4 - (y - 1) / 4 == if y % 4 == 0 then 1 else 0
  {}

  lemma By100(y: nat)
    requires y >= 1
    ensures y / 100 - (y - 1) / 100 == if y % 100 == 0 then 1 else 0
  {}

  lemma By400(y: nat)
    requires y >= 1
    ensures y / 400 - (y - 1) / 400 == if y % 400 == 0 then 1 else 0
  {}

  lemma DaysAdvance(a: Utc, b: Utc)
    requires Valid(a) && Valid(b)
    requires a.year < b.year || (a.year == b.year && (a.month < b.month || (a.month == b.month && a.day < b.day)))
    ensures DayNumber(a) < DayNumber(b)
  {
    hide DaysIn, DaysBeforeYear, DaysBeforeMonth;
    if a.year < b.year {
      YearsAdvance(a.year, b.year);
      MonthsAdvance(a.year, a.month, 13);
    } else if a.month < b.month {
      MonthsAdvance(a.year, a.month, b.month);
    }
  }

  lemma FieldsOrderInstants(a: Utc, b: Utc)
    requires Valid(a) && Valid(b) && Before(a, b)
    ensures Instant(a) < Instant(b)
  {
    hide DayNumber;
    if a.year < b.year || (a.year == b.year && (a.month < b.month || (a.month == b.month && a.day < b.day))) {
      DaysAdvance(a, b);
      assert DayNumber(a) * 24 + 24 <= DayNumber(b) * 24;
    } else {
      assert DayNumber(a) == DayNumber(b) by { SameDay(a, b); }
    }
  }

  lemma SameDay(a: Utc, b: Utc)
    requires a.year >= 1 && a.year == b.year && a.month == b.month && a.day == b.day
    ensures DayNumber(a) == DayNumber(b)
  {}

  /** For UTC instants in four-digit years, lexicographic order on the printed form is exactly
      chronological order, fractions or not. */
  lemma StringOrderIsTimeOrder(a: Utc, b: Utc)
    requires Valid(a) && Valid(b)
    ensures LexLess(Iso(a), Iso(b)) <==> Instant(a) < Instant(b)
    ensures Iso(a) == Iso(b) <==> Instant(a) == Instant(b)
  {
    hide LexLess, Iso, Instant;
    IsoOrdersFields(a, b);
    IsoOrdersFields(b, a);
    if Before(a, b) { FieldsOrderInstants(a, b); }
    else if Before(b, a) { FieldsOrderInstants(b, a); }
    else { assert a == b; }
    LexIrreflexive(Iso(a));
  }
}
