/** Stored timestamps (app/thread_cleanup.py `_iso` and `_parse_iso`).
    Every SQL cutoff, claim-expiry and cursor test compares stored timestamps as
    text, so the text order has to be the time order, although `isoformat` drops a
    zero fraction. */
module Timestamps {
  import opened Common

  /** An aware UTC datetime, with Python's field ranges. */
  datatype Stamp = Stamp(year: nat, month: nat, day: nat,
                         hour: nat, minute: nat, second: nat, micro: nat)

  predicate Leap(y: int) { y % 4 == 0 && (y % 100 != 0 || y % 400 == 0) }

  function DaysIn(y: int, m: int): int {
    if m == 2 then (if Leap(y) then 29 else 28)
    else if m == 4 || m == 6 || m == 9 || m == 11 then 30
    else 31
  }

  predicate Valid(s: Stamp) {
    && 1 <= s.year <= 9999 && 1 <= s.month <= 12 && 1 <= s.day <= DaysIn(s.year, s.month)
    && s.hour < 24 && s.minute < 60 && s.second < 60 && s.micro < 1000000
  }

  // ---- the instant a stamp denotes ---------------------------------------

  /** Days before 1 January of year `y` in the proleptic Gregorian calendar. */
  function YearStart(y: int): int {
    365 * (y - 1) + (y - 1) / 4 - (y - 1) / 100 + (y - 1) / 400
  }

  function MonthStart(y: int, m: nat): int {
    if m <= 1 then 0 else MonthStart(y, m - 1) + DaysIn(y, m - 1)
  }

  function DayNumber(s: Stamp): int {
    YearStart(s.year) + MonthStart(s.year, s.month) + s.day
  }

  function MicroOfDay(s: Stamp): int {
    ((s.hour * 60 + s.minute) * 60 + s.second) * 1000000 + s.micro
  }

  /** Microseconds since the calendar began: the order of time itself. */
  function Instant(s: Stamp): int { DayNumber(s) * 86400000000 + MicroOfDay(s) }

  // ---- text ----------------------------------------------------------------

  function Digit(d: nat): char
    requires d < 10
  {
    ('0' as int + d) as char
  }

  function Pow10(w: nat): nat { if w == 0 then 1 else 10 * Pow10(w - 1) }

  /** `n` zero-padded to `w` digits (Python's `%0wd`). */
  function Digits(n: nat, w: nat): (text: string)
    ensures |text| == w
  {
    if w == 0 then [] else Digits(n / 10, w - 1) + [Digit(n % 10)]
  }

  function Fraction(micro: nat): string {
    if micro == 0 then [] else "." + Digits(micro, 6)
  }

  function TimeText(s: Stamp): string {
    Digits(s.hour, 2) + (":" + (Digits(s.minute, 2) + (":" + (Digits(s.second, 2)
    + (Fraction(s.micro) + "+00:00")))))
  }

  /** `_iso`: datetime.isoformat() of a UTC value. */
  function Iso(s: Stamp): string {
    Digits(s.year, 4) + ("-" + (Digits(s.month, 2) + ("-" + (Digits(s.day, 2) + ("T" + TimeText(s))))))
  }

  // ---- parsing ---------------------------------------------------------------

  predicate AllDigits(t: string) { forall i :: 0 <= i < |t| ==> '0' <= t[i] <= '9' }

  function DigitValue(c: char): nat {
    if '0' <= c <= '9' then c as int - '0' as int else 0
  }

  function Number(t: string): nat {
    if t == [] then 0 else 10 * Number(t[..|t| - 1]) + DigitValue(t[|t| - 1])
  }

  predicate Separated(t: string)
    requires |t| == 25 || |t| == 32
  {
    && t[4] == '-' && t[7] == '-' && t[10] == 'T' && t[13] == ':' && t[16] == ':'
    && t[|t| - 6..] == "+00:00" && (|t| == 32 ==> t[19] == '.')
  }

  predicate Numeric(t: string)
    requires |t| == 25 || |t| == 32
  {
    && AllDigits(t[..4]) && AllDigits(t[5..7]) && AllDigits(t[8..10])
    && AllDigits(t[11..13]) && AllDigits(t[14..16]) && AllDigits(t[17..19])
    && (|t| == 32 ==> AllDigits(t[20..26]))
  }

  function Fields(t: string): Stamp
    requires |t| == 25 || |t| == 32
  {
    Stamp(Number(t[..4]), Number(t[5..7]), Number(t[8..10]), Number(t[11..13]),
          Number(t[14..16]), Number(t[17..19]), if |t| == 32 then Number(t[20..26]) else 0)
  }

  /** `_parse_iso` on the texts `_iso` produces; every other text is unreadable here. */
  function ParseIso(t: string): Option<Stamp> {
    if (|t| == 25 || |t| == 32) && Separated(t) && Numeric(t) && Valid(Fields(t))
    then Some(Fields(t)) else None
  }

  // ---- text order of one padded number ----------------------------------------

  lemma {:induction false} DigitsOrder(n: nat, m: nat, w: nat, x: string, y: string)
    requires n < Pow10(w) && m < Pow10(w)
    ensures TextLess(Digits(n, w) + x, Digits(m, w) + y) <==> n < m || (n == m && TextLess(x, y))
  {
    if w == 0 {
      assert Digits(n, w) + x == x && Digits(m, w) + y == y;
    } else {
      var x1, y1 := [Digit(n % 10)] + x, [Digit(m % 10)] + y;
      assert Digits(n, w) + x == Digits(n / 10, w - 1) + x1;
      assert Digits(m, w) + y == Digits(m / 10, w - 1) + y1;
      DigitsOrder(n / 10, m / 10, w - 1, x1, y1);
      assert x1[1..] == x && y1[1..] == y;
    }
  }

  lemma SameHead(c: char, x: string, y: string)
    ensures TextLess([c] + x, [c] + y) <==> TextLess(x, y)
  {
    assert ([c] + x)[1..] == x && ([c] + y)[1..] == y;
  }

  lemma FractionOrder(n: nat, m: nat)
    requires n < 1000000 && m < 1000000
    ensures TextLess(Fraction(n) + "+00:00", Fraction(m) + "+00:00") <==> n < m
  {
    // '+' sorts before '.', so the shorter text is the earlier one
    if n != 0 && m != 0 {
      assert Fraction(n) + "+00:00" == ['.'] + (Digits(n, 6) + "+00:00");
      assert Fraction(m) + "+00:00" == ['.'] + (Digits(m, 6) + "+00:00");
      SameHead('.', Digits(n, 6) + "+00:00", Digits(m, 6) + "+00:00");
      assert Pow10(3) == 1000 && Pow10(6) == 1000000;
      DigitsOrder(n, m, 6, "+00:00", "+00:00");
      TextTrichotomy("+00:00", "+00:00");
    } else if n == 0 && m == 0 {
      TextTrichotomy(Fraction(n) + "+00:00", Fraction(n) + "+00:00");
    }
  }

  lemma TimeTextOrder(a: Stamp, b: Stamp)
    requires Valid(a) && Valid(b)
    ensures TextLess(TimeText(a), TimeText(b)) <==> MicroOfDay(a) < MicroOfDay(b)
  {
    assert Pow10(2) == 100;
    var fa, fb := Fraction(a.micro) + "+00:00", Fraction(b.micro) + "+00:00";
    FractionOrder(a.micro, b.micro);
    DigitsOrder(a.second, b.second, 2, fa, fb);
    var sa, sb := Digits(a.second, 2) + fa, Digits(b.second, 2) + fb;
    SameHead(':', sa, sb);
    DigitsOrder(a.minute, b.minute, 2, ":" + sa, ":" + sb);
    var ma, mb := Digits(a.minute, 2) + (":" + sa), Digits(b.minute, 2) + (":" + sb);
    SameHead(':', ma, mb);
    DigitsOrder(a.hour, b.hour, 2, ":" + ma, ":" + mb);
  }

  // ---- calendar order ----------------------------------------------------------

  lemma QuotientStep(y: int)
    ensures y / 4 == (y - 1) / 4 + (if y % 4 == 0 then 1 else 0)
    ensures y / 100 == (y - 1) / 100 + (if y % 100 == 0 then 1 else 0)
    ensures y / 400 == (y - 1) / 400 + (if y % 400 == 0 then 1 else 0)
  {
  }

  lemma Multiples(z: int)
    ensures 100 * z % 100 == 0 && 4 * z % 4 == 0
  {
  }

  lemma LeapCycle(y: int)
    ensures y % 400 == 0 ==> y % 100 == 0
    ensures y % 100 == 0 ==> y % 4 == 0
  {
    Multiples(4 * (y / 400));
    Multiples(25 * (y / 100));
  }

  lemma YearLength(y: int)
    requires y >= 1
    ensures YearStart(y + 1) == YearStart(y) + (if Leap(y) then 366 else 365)
  {
    QuotientStep(y);
    LeapCycle(y);
  }

  lemma {:induction false} YearsInOrder(y: int, z: int)
    requires 1 <= y < z
    ensures YearStart(y) + (if Leap(y) then 366 else 365) <= YearStart(z)
    decreases z - y
  {
    YearLength(y);
    if y + 1 < z { YearsInOrder(y + 1, z); }
  }

  lemma {:induction false} MonthsInOrder(y: int, m: nat, n: nat)
    requires 1 <= m < n <= 13
    ensures MonthStart(y, m) + DaysIn(y, m) <= MonthStart(y, n)
    decreases n - m
  {
    if m + 1 < n { MonthsInOrder(y, m, n - 1); }
  }

  lemma YearIsTwelveMonths(y: int)
    ensures MonthStart(y, 13) == if Leap(y) then 366 else 365
  {
    assert MonthStart(y, 2) == 31 && MonthStart(y, 3) == 31 + DaysIn(y, 2);
    assert MonthStart(y, 5) == MonthStart(y, 4) + 30 == MonthStart(y, 3) + 61;
    assert MonthStart(y, 7) == MonthStart(y, 6) + 30 == MonthStart(y, 5) + 61;
    assert MonthStart(y, 9) == MonthStart(y, 8) + 31 == MonthStart(y, 7) + 62;
    assert MonthStart(y, 11) == MonthStart(y, 10) + 31 == MonthStart(y, 9) + 61;
    assert MonthStart(y, 13) == MonthStart(y, 12) + 31 == MonthStart(y, 11) + 61;
  }

  lemma {:induction false} MonthStartBounds(y: int, m: nat)
    requires 1 <= m <= 12
    ensures 0 <= MonthStart(y, m)
    ensures MonthStart(y, m) + DaysIn(y, m) <= (if Leap(y) then 366 else 365)
  {
    MonthsInOrder(y, m, 13);
    YearIsTwelveMonths(y);
    if m > 1 { MonthsInOrder(y, 1, m); }
  }

  predicate DateBefore(a: Stamp, b: Stamp) {
    a.year < b.year
    || (a.year == b.year && (a.month < b.month || (a.month == b.month && a.day < b.day)))
  }

  predicate SameDate(a: Stamp, b: Stamp) {
    a.year == b.year && a.month == b.month && a.day == b.day
  }

  lemma DateBeforeIsEarlierDay(a: Stamp, b: Stamp)
    requires Valid(a) && Valid(b) && DateBefore(a, b)
    ensures DayNumber(a) < DayNumber(b)
  {
    MonthStartBounds(a.year, a.month);
    MonthStartBounds(b.year, b.month);
    if a.year < b.year {
      YearsInOrder(a.year, b.year);
    } else if a.month < b.month {
      MonthsInOrder(a.year, a.month, b.month);
    }
  }

  lemma InstantOrder(a: Stamp, b: Stamp)
    requires Valid(a) && Valid(b)
    ensures Instant(a) < Instant(b) <==>
            DateBefore(a, b) || (SameDate(a, b) && MicroOfDay(a) < MicroOfDay(b))
  {
    if DateBefore(a, b) {
      DateBeforeIsEarlierDay(a, b);
    } else if !SameDate(a, b) {
      DateBeforeIsEarlierDay(b, a);
    }
  }

  // ---- the two promises ----------------------------------------------------------

  /** Comparing stored timestamps as text is comparing instants. */
  lemma TextOrderIsTimeOrder(a: Stamp, b: Stamp)
    requires Valid(a) && Valid(b)
    ensures TextLess(Iso(a), Iso(b)) <==> Instant(a) < Instant(b)
  {
    assert Pow10(2) == 100 && Pow10(4) == 10000;
    TimeTextOrder(a, b);
    InstantOrder(a, b);
    SameHead('T', TimeText(a), TimeText(b));
    DigitsOrder(a.day, b.day, 2, "T" + TimeText(a), "T" + TimeText(b));
    var da, db := Digits(a.day, 2) + ("T" + TimeText(a)), Digits(b.day, 2) + ("T" + TimeText(b));
    SameHead('-', da, db);
    DigitsOrder(a.month, b.month, 2, "-" + da, "-" + db);
    var ma, mb := Digits(a.month, 2) + ("-" + da), Digits(b.month, 2) + ("-" + db);
    SameHead('-', ma, mb);
    DigitsOrder(a.year, b.year, 4, "-" + ma, "-" + mb);
  }

  lemma {:induction false} NumberOfDigits(n: nat, w: nat)
    requires n < Pow10(w)
    ensures AllDigits(Digits(n, w)) && Number(Digits(n, w)) == n
  {
    if w > 0 {
      NumberOfDigits(n / 10, w - 1);
      var t := Digits(n, w);
      assert t[..|t| - 1] == Digits(n / 10, w - 1);
    }
  }

  /** A field, its separator, and the rest can be cut apart again. */
  lemma Peel(a: string, c: char, rest: string)
    ensures var t := a + ([c] + rest);
      |t| == |a| + 1 + |rest| && t[..|a|] == a && t[|a|] == c && t[|a| + 1..] == rest
  {
  }

  lemma DateFields(s: Stamp)
    ensures var t := Iso(s);
      && |t| == 11 + |TimeText(s)| && t[11..] == TimeText(s)
      && t[..4] == Digits(s.year, 4) && t[4] == '-' && t[5..7] == Digits(s.month, 2) && t[7] == '-'
      && t[8..10] == Digits(s.day, 2) && t[10] == 'T'
  {
    var t := Iso(s);
    var days := Digits(s.day, 2) + ("T" + TimeText(s));
    var months := Digits(s.month, 2) + ("-" + days);
    Peel(Digits(s.year, 4), '-', months);
    Peel(Digits(s.month, 2), '-', days);
    Peel(Digits(s.day, 2), 'T', TimeText(s));
    assert t[5..] == months && t[5..7] == months[..2] && t[7] == months[2];
    assert t[8..] == months[3..] && t[8..10] == days[..2] && t[10] == days[2] && t[11..] == days[3..];
  }

  lemma TimeFields(s: Stamp)
    ensures var u := TimeText(s);
      && |u| == 8 + |Fraction(s.micro) + "+00:00"| && u[8..] == Fraction(s.micro) + "+00:00"
      && u[..2] == Digits(s.hour, 2) && u[2] == ':' && u[3..5] == Digits(s.minute, 2) && u[5] == ':'
      && u[6..8] == Digits(s.second, 2)
  {
    var u, end := TimeText(s), Fraction(s.micro) + "+00:00";
    var seconds := Digits(s.second, 2) + end;
    var minutes := Digits(s.minute, 2) + (":" + seconds);
    Peel(Digits(s.hour, 2), ':', minutes);
    Peel(Digits(s.minute, 2), ':', seconds);
    assert u[3..] == minutes && u[3..5] == minutes[..2] && u[5] == minutes[2];
    assert u[6..] == minutes[3..] && u[6..8] == seconds[..2] && u[8..] == seconds[2..];
  }

  lemma EndFields(s: Stamp)
    ensures var end := Fraction(s.micro) + "+00:00";
      && |end| == (if s.micro == 0 then 6 else 13) && end[|end| - 6..] == "+00:00"
      && (s.micro != 0 ==> end[0] == '.' && end[1..7] == Digits(s.micro, 6))
  {
    if s.micro != 0 {
      assert Fraction(s.micro) == [] + (['.'] + Digits(s.micro, 6));
      Peel([], '.', Digits(s.micro, 6));
    }
  }

  lemma Within(t: string, a: nat, i: nat, j: nat)
    requires a + i <= a + j <= |t|
    ensures t[a + i..a + j] == t[a..][i..j]
  {
  }

  lemma ClockFields(s: Stamp)
    ensures var t := Iso(s);
      && |t| == 19 + |Fraction(s.micro) + "+00:00"| && t[19..] == Fraction(s.micro) + "+00:00"
      && t[11..13] == Digits(s.hour, 2) && t[13] == ':' && t[14..16] == Digits(s.minute, 2) && t[16] == ':'
      && t[17..19] == Digits(s.second, 2)
  {
    DateFields(s);
    TimeFields(s);
    var t, u := Iso(s), TimeText(s);
    Within(t, 11, 0, 2);
    Within(t, 11, 3, 5);
    Within(t, 11, 6, 8);
    Within(t, 11, 8, |u|);
    assert t[13] == t[11..][2] && t[16] == t[11..][5];
  }

  lemma TailFields(s: Stamp)
    ensures var t := Iso(s);
      && |t| == (if s.micro == 0 then 25 else 32) && t[|t| - 6..] == "+00:00"
      && (s.micro != 0 ==> t[19] == '.' && t[20..26] == Digits(s.micro, 6))
  {
    ClockFields(s);
    EndFields(s);
    var t, end := Iso(s), Fraction(s.micro) + "+00:00";
    Within(t, 19, |end| - 6, |end|);
    if s.micro != 0 {
      assert t[19] == t[19..][0];
      Within(t, 19, 1, 7);
    }
  }

  /** Where each field sits in the text. */
  lemma IsoFields(s: Stamp)
    ensures var t := Iso(s);
      && |t| == (if s.micro == 0 then 25 else 32) && Separated(t)
      && t[..4] == Digits(s.year, 4) && t[5..7] == Digits(s.month, 2)
      && t[8..10] == Digits(s.day, 2) && t[11..13] == Digits(s.hour, 2)
      && t[14..16] == Digits(s.minute, 2) && t[17..19] == Digits(s.second, 2)
      && (s.micro != 0 ==> t[20..26] == Digits(s.micro, 6))
  {
    DateFields(s);
    ClockFields(s);
    TailFields(s);
  }

  lemma DigitsReadBack(s: Stamp)
    requires Valid(s)
    ensures forall n, w :: (n, w) in {(s.year, 4), (s.month, 2), (s.day, 2), (s.hour, 2), (s.minute, 2),
        (s.second, 2), (s.micro, 6)}
              ==> AllDigits(Digits(n, w)) && Number(Digits(n, w)) == n
  {
    assert Pow10(2) == 100 && Pow10(4) == 10000 && Pow10(3) == 1000 && Pow10(6) == 1000000;
    NumberOfDigits(s.year, 4);
    NumberOfDigits(s.month, 2);
    NumberOfDigits(s.day, 2);
    NumberOfDigits(s.hour, 2);
    NumberOfDigits(s.minute, 2);
    NumberOfDigits(s.second, 2);
    NumberOfDigits(s.micro, 6);
  }

  /** `_parse_iso` undoes `_iso`. */
  lemma ParseUndoesIso(s: Stamp)
    requires Valid(s)
    ensures ParseIso(Iso(s)) == Some(s)
  {
    IsoFields(s);
    DigitsReadBack(s);
    assert Fields(Iso(s)) == s;
  }

  /** Distinct instants are stored as distinct texts. */
  lemma IsoInjective(a: Stamp, b: Stamp)
    requires Valid(a) && Valid(b) && Iso(a) == Iso(b)
    ensures a == b
  {
    ParseUndoesIso(a);
    ParseUndoesIso(b);
  }
}
