/** UTC date-times at second precision, their rendering by
    `strftime("%Y-%m-%dT%H:%M:%SZ")`, and Python's string comparison on the
    result. The point of the module is FormatOrder: for this fixed-width
    format, comparing the strings compares the instants (the property that
    section 5.1 of RFC 3339 states for the date-time format of its section 5.6). */
module Timestamp {

  // ---------------------------------------------------------------------
  // Python's string comparison

  /** `a < b` on Python str: code point by code point, a proper prefix
      first. No string is less than itself. */
  predicate LexLess(a: string, b: string)
    ensures LexLess(a, b) ==> a != b
    ensures |a| < |b| && a == b[..|a|] ==> LexLess(a, b)
    decreases |a|
  {
    assert |a| > 0 && |a| < |b| && a == b[..|a|] ==> a[1..] == b[1..][..|a| - 1];
    |b| > 0 && (|a| == 0 || (if a[0] == b[0] then LexLess(a[1..], b[1..]) else a[0] < b[0]))
  }

  /** Comparing two strings that start with equally long prefixes compares
      the prefixes first and the rests only when the prefixes are equal. */
  lemma {:induction false} LexLessAppend(p: string, q: string, x: string, y: string)
    requires |p| == |q|
    ensures LexLess(p + x, q + y) <==> LexLess(p, q) || (p == q && LexLess(x, y))
    decreases |p|
  {
    if |p| == 0 {
      assert p + x == x && q + y == y;
    } else {
      assert (p + x)[0] == p[0] && (q + y)[0] == q[0];
      assert (p + x)[1..] == p[1..] + x && (q + y)[1..] == q[1..] + y;
      assert p == [p[0]] + p[1..] && q == [q[0]] + q[1..];
      LexLessAppend(p[1..], q[1..], x, y);
    }
  }

  lemma ConcatEqual(p: string, q: string, x: string, y: string)
    requires |p| == |q|
    ensures p + x == q + y <==> p == q && x == y
  {
    if p + x == q + y {
      assert p == (p + x)[..|p|] && q == (q + y)[..|q|];
      assert x == (p + x)[|p|..] && y == (q + y)[|q|..];
    }
  }

  // ---------------------------------------------------------------------
  // Zero-padded decimal fields

  function Pow10(n: nat): (r: nat)
    ensures r >= 1
  {
    if n == 0 then 1 else 10 * Pow10(n - 1)
  }

  /** `n` in decimal, zero-padded to exactly `width` digits (`%m` is `Digits(m, 2)`). */
  function Digits(n: nat, width: nat): (s: string)
    requires n < Pow10(width)
    ensures |s| == width
  {
    if width == 0 then "" else Digits(n / 10, width - 1) + [(48 + n % 10) as char]
  }

  /** Equal-width zero-padded numerals compare as strings the way the numbers compare. */
  lemma {:induction false} DigitsOrder(a: nat, b: nat, width: nat)
    requires a < Pow10(width) && b < Pow10(width)
    ensures LexLess(Digits(a, width), Digits(b, width)) <==> a < b
    ensures Digits(a, width) == Digits(b, width) <==> a == b
  {
    if width == 0 {
      assert a == 0 && b == 0;
    } else {
      var pa, pb := Digits(a / 10, width - 1), Digits(b / 10, width - 1);
      var ca, cb := (48 + a % 10) as char, (48 + b % 10) as char;
      DigitsOrder(a / 10, b / 10, width - 1);
      LexLessAppend(pa, pb, [ca], [cb]);
      ConcatEqual(pa, pb, [ca], [cb]);
      assert LexLess([ca], [cb]) <==> ca < cb by {
        assert [ca][1..] == [] && [cb][1..] == [];
      }
      assert a == 10 * (a / 10) + a % 10 && b == 10 * (b / 10) + b % 10;
    }
  }

  // ---------------------------------------------------------------------
  // The calendar (proleptic Gregorian, as Python's datetime)

  predicate IsLeapYear(y: nat)
  {
    y % 4 == 0 && (y % 100 != 0 || y % 400 == 0)
  }

  function DaysInMonth(y: nat, m: nat): nat
    requires 1 <= m <= 12
  {
    if m == 2 then (if IsLeapYear(y) then 29 else 28)
    else if m == 4 || m == 6 || m == 9 || m == 11 then 30
    else 31
  }

  function YearLength(y: nat): nat
  {
    if IsLeapYear(y) then 366 else 365
  }

  /** A date and time of day, field by field, as a datetime holds them. */
  datatype DateTime = DateTime(year: nat, month: nat, day: nat, hour: nat, minute: nat, second: nat)

  /** The date-times in range: a real calendar day and a time of day. Years
      stop at 9999 like Python's datetime, and start at 1000, where `%Y`
      begins to print four digits on every platform. */
  predicate Valid(t: DateTime)
  {
    && 1000 <= t.year <= 9999
    && 1 <= t.month <= 12
    && 1 <= t.day <= DaysInMonth(t.year, t.month)
    && t.hour < 24 && t.minute < 60 && t.second < 60
  }

  type Instant = t: DateTime | Valid(t) witness DateTime(1970, 1, 1, 0, 0, 0)

  /** Days from 0001-01-01 to the first day of year `y`. */
  function DaysBeforeYear(y: nat): nat
    requires y >= 1
  {
    if y == 1 then 0 else DaysBeforeYear(y - 1) + YearLength(y - 1)
  }

  /** Days from the first of the year to the first of month `m`. */
  function DaysBeforeMonth(y: nat, m: nat): nat
    requires 1 <= m <= 12
  {
    var leapDay := if m > 2 && IsLeapYear(y) then 1 else 0;
    leapDay + (
      if m == 1 then 0 else if m == 2 then 31 else if m == 3 then 59
      else if m == 4 then 90 else if m == 5 then 120 else if m == 6 then 151
      else if m == 7 then 181 else if m == 8 then 212 else if m == 9 then 243
      else if m == 10 then 273 else if m == 11 then 304 else 334)
  }

  /** Seconds from 0001-01-01T00:00:00Z to `t` (no leap seconds, as datetime). */
  function Seconds(t: Instant): int
  {
    var days := DaysBeforeYear(t.year) + DaysBeforeMonth(t.year, t.month) + t.day - 1;
    days * 86400 + t.hour * 3600 + t.minute * 60 + t.second
  }

  /** A year ends no later than any later year begins. */
  lemma {:induction false} YearsInOrder(y: nat, z: nat)
    requires 1 <= y < z
    ensures DaysBeforeYear(y) + YearLength(y) <= DaysBeforeYear(z)
    decreases z - y
  {
    if y + 1 < z {
      YearsInOrder(y + 1, z);
    }
  }

  /** A month ends no later than any later month begins, and the last ends with the year. */
  lemma MonthsInOrder(y: nat, m: nat, n: nat)
    requires 1 <= m <= 12 && 1 <= n <= 12
    ensures m < n ==> DaysBeforeMonth(y, m) + DaysInMonth(y, m) <= DaysBeforeMonth(y, n)
    ensures DaysBeforeMonth(y, m) + DaysInMonth(y, m) <= YearLength(y)
  {
  }

  /** The order of the printed fields, most significant first. */
  predicate FieldsBefore(a: DateTime, b: DateTime)
  {
    || a.year < b.year
    || (a.year == b.year && a.month < b.month)
    || (a.year == b.year && a.month == b.month && a.day < b.day)
    || (a.year == b.year && a.month == b.month && a.day == b.day && a.hour < b.hour)
    || (a.year == b.year && a.month == b.month && a.day == b.day && a.hour == b.hour && a.minute < b.minute)
    || (a.year == b.year && a.month == b.month && a.day == b.day && a.hour == b.hour && a.minute == b.minute
        && a.second < b.second)
  }

  /** Comparing the fields one after the other is comparing the instants. */
  lemma FieldsBeforeIsChronological(a: Instant, b: Instant)
    ensures FieldsBefore(a, b) <==> Seconds(a) < Seconds(b)
  {
    if FieldsBefore(a, b) {
      EarlierFields(a, b);
    } else if FieldsBefore(b, a) {
      EarlierFields(b, a);
    } else {
      assert a == b;
    }
  }

  lemma EarlierFields(a: Instant, b: Instant)
    requires FieldsBefore(a, b)
    ensures Seconds(a) < Seconds(b)
  {
    var da := DaysBeforeYear(a.year) + DaysBeforeMonth(a.year, a.month) + a.day - 1;
    var db := DaysBeforeYear(b.year) + DaysBeforeMonth(b.year, b.month) + b.day - 1;
    MonthsInOrder(a.year, a.month, b.month);
    if a.year < b.year {
      YearsInOrder(a.year, b.year);
    }
    assert da < db || (da == db && a.hour * 3600 + a.minute * 60 + a.second < b.hour * 3600 + b.minute * 60 + b.second);
  }

  // ---------------------------------------------------------------------
  // The fixed format

  /** One field printed as it appears in the format, followed by the character after it. */
  lemma PieceOrder(a: nat, b: nat, width: nat, c: char, x: string, y: string)
    requires a < Pow10(width) && b < Pow10(width)
    ensures LexLess(Digits(a, width) + [c] + x, Digits(b, width) + [c] + y) <==> a < b || (a == b && LexLess(x, y))
    ensures Digits(a, width) + [c] + x == Digits(b, width) + [c] + y <==> a == b && x == y
  {
    var pa, pb := Digits(a, width) + [c], Digits(b, width) + [c];
    DigitsOrder(a, b, width);
    LexLessAppend(pa, pb, x, y);
    ConcatEqual(pa, pb, x, y);
    LexLessAppend(Digits(a, width), Digits(b, width), [c], [c]);
    ConcatEqual(Digits(a, width), Digits(b, width), [c], [c]);
  }

  /** `%H:%M:%SZ`. */
  function Clock(t: Instant): (s: string)
    ensures |s| == 9
  {
    assert Pow10(2) == 100;
    Digits(t.hour, 2) + ":" + (Digits(t.minute, 2) + ":" + (Digits(t.second, 2) + "Z"))
  }

  /** `t.strftime("%Y-%m-%dT%H:%M:%SZ")`. */
  function Format(t: Instant): (s: string)
    ensures |s| == 20
  {
    assert Pow10(2) == 100 && Pow10(4) == 10000;
    Digits(t.year, 4) + "-" + (Digits(t.month, 2) + "-" + (Digits(t.day, 2) + "T" + Clock(t)))
  }

  /** `%H:%M:%SZ` orders and identifies times of day field by field. */
  lemma ClockOrder(a: Instant, b: Instant)
    ensures LexLess(Clock(a), Clock(b)) <==>
      a.hour < b.hour || (a.hour == b.hour && (a.minute < b.minute || (a.minute == b.minute && a.second < b.second)))
    ensures Clock(a) == Clock(b) <==> a.hour == b.hour && a.minute == b.minute && a.second == b.second
  {
    assert Pow10(2) == 100;
    PieceOrder(a.second, b.second, 2, 'Z', "", "");
    assert Digits(a.second, 2) + "Z" == Digits(a.second, 2) + ['Z'] + "";
    assert Digits(b.second, 2) + "Z" == Digits(b.second, 2) + ['Z'] + "";
    var sa, sb := Digits(a.second, 2) + "Z", Digits(b.second, 2) + "Z";
    PieceOrder(a.minute, b.minute, 2, ':', sa, sb);
    var ma, mb := Digits(a.minute, 2) + ":" + sa, Digits(b.minute, 2) + ":" + sb;
    PieceOrder(a.hour, b.hour, 2, ':', ma, mb);
  }

  /** For this format the string order is the chronological order, and two
      instants print the same exactly when they are the same instant. */
  lemma FormatOrder(a: Instant, b: Instant)
    ensures LexLess(Format(a), Format(b)) <==> Seconds(a) < Seconds(b)
    ensures Format(a) == Format(b) <==> a == b
  {
    assert Pow10(2) == 100 && Pow10(4) == 10000;
    ClockOrder(a, b);
    PieceOrder(a.day, b.day, 2, 'T', Clock(a), Clock(b));
    var da, db := Digits(a.day, 2) + "T" + Clock(a), Digits(b.day, 2) + "T" + Clock(b);
    PieceOrder(a.month, b.month, 2, '-', da, db);
    var na, nb := Digits(a.month, 2) + "-" + da, Digits(b.month, 2) + "-" + db;
    PieceOrder(a.year, b.year, 4, '-', na, nb);
    FieldsBeforeIsChronological(a, b);
  }
}
