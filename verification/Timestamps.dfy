/** Timestamps as the operator writes them, in the RFC 3339 format with one-second resolution, and
    the string comparison by which it decides what happened later. */
module Timestamps {

  datatype Date = Date(year: nat, month: nat, day: nat, hour: nat, minute: nat, second: nat)

  predicate Leap(year: nat) {
    year % 4 == 0 && (year % 100 != 0 || year % 400 == 0)
  }

  function DaysIn(year: nat, month: nat): nat {
    if month == 2 then (if Leap(year) then 29 else 28)
    else if month == 4 || month == 6 || month == 9 || month == 11 then 30 else 31
  }

  predicate Valid(t: Date) {
    && t.year <= 9999 && 1 <= t.month <= 12 && 1 <= t.day <= DaysIn(t.year, t.month)
    && t.hour < 24 && t.minute < 60 && t.second < 60
  }

  type Timestamp = t: Date | Valid(t) witness Date(1970, 1, 1, 0, 0, 0)

  // ---------- time ----------

  function DaysBeforeYear(year: nat): nat {
    if year == 0 then 0 else DaysBeforeYear(year - 1) + if Leap(year - 1) then 366 else 365
  }

  function DaysBeforeMonth(year: nat, month: nat): nat
  {
    if month <= 1 then 0 else DaysBeforeMonth(year, month - 1) + DaysIn(year, month - 1)
  }

  function Day(t: Timestamp): nat {
    DaysBeforeYear(t.year) + DaysBeforeMonth(t.year, t.month) + t.day - 1
  }

  function SecondOfDay(t: Timestamp): nat {
    t.hour * 3600 + t.minute * 60 + t.second
  }

  /** Seconds elapsed since the start of the year 0. */
  function Seconds(t: Timestamp): nat {
    Day(t) * 86400 + SecondOfDay(t)
  }

  lemma RoundedUpToFour(n: nat)
    ensures (n + 4) / 4 == (n + 3) / 4 + if n % 4 == 0 then 1 else 0
  {
  }

  lemma RoundedUpToHundred(n: nat)
    ensures (n + 100) / 100 == (n + 99) / 100 + if n % 100 == 0 then 1 else 0
  {
  }

  lemma RoundedUpToFourHundred(n: nat)
    ensures (n + 400) / 400 == (n + 399) / 400 + if n % 400 == 0 then 1 else 0
  {
  }

  lemma Multiples(k: nat)
    ensures (4 * k) % 4 == 0 && (100 * k) % 100 == 0
  {
  }

  lemma Centuries(n: nat)
    ensures n % 100 == 0 ==> n % 4 == 0
    ensures n % 400 == 0 ==> n % 100 == 0
  {
    var c, q := n / 100, n / 400;
    if n % 100 == 0 {
      Multiples(25 * c);
    }
    if n % 400 == 0 {
      Multiples(4 * q);
    }
  }

  /** Of the years before `year`, every fourth is a leap year, of those that end in 00 only every fourth. */
  lemma {:induction false} DaysBeforeYearMeans(year: nat)
    ensures DaysBeforeYear(year) == 365 * year + (year + 3) / 4 - (year + 99) / 100 + (year + 399) / 400
  {
    if year > 0 {
      var n := year - 1;
      DaysBeforeYearMeans(n);
      RoundedUpToFour(n);
      RoundedUpToHundred(n);
      RoundedUpToFourHundred(n);
      assert Leap(n) <==> n % 4 == 0 && (n % 100 != 0 || n % 400 == 0);
      hide Leap;
      Centuries(n);
    }
  }

  lemma DaysBeforeMonthMeans(year: nat)
    ensures var leap := if year % 4 == 0 && (year % 100 != 0 || year % 400 == 0) then 1 else 0;
            && DaysBeforeMonth(year, 1) == 0 && DaysBeforeMonth(year, 2) == 31 && DaysBeforeMonth(year, 3) == 59 + leap
            && DaysBeforeMonth(year, 4) == 90 + leap && DaysBeforeMonth(year, 5) == 120 + leap && DaysBeforeMonth(year, 6) == 151 + leap
            && DaysBeforeMonth(year, 7) == 181 + leap && DaysBeforeMonth(year, 8) == 212 + leap && DaysBeforeMonth(year, 9) == 243 + leap
            && DaysBeforeMonth(year, 10) == 273 + leap && DaysBeforeMonth(year, 11) == 304 + leap && DaysBeforeMonth(year, 12) == 334 + leap
  {
    assert DaysBeforeMonth(year, 2) == 31;
    assert DaysBeforeMonth(year, 3) == 31 + DaysIn(year, 2);
    assert DaysBeforeMonth(year, 5) == 92 + DaysIn(year, 2);
    assert DaysBeforeMonth(year, 7) == 153 + DaysIn(year, 2);
    assert DaysBeforeMonth(year, 9) == 215 + DaysIn(year, 2);
    assert DaysBeforeMonth(year, 11) == 276 + DaysIn(year, 2);
  }

  lemma {:induction false} YearsApart(y: nat, z: nat)
    requires y < z
    ensures DaysBeforeYear(y) + (if Leap(y) then 366 else 365) <= DaysBeforeYear(z)
  {
    if y + 1 < z {
      YearsApart(y, z - 1);
    }
  }

  lemma {:induction false} MonthsApart(y: nat, m: nat, n: nat)
    requires 1 <= m < n
    ensures DaysBeforeMonth(y, m) + DaysIn(y, m) <= DaysBeforeMonth(y, n)
  {
    if m + 1 < n {
      MonthsApart(y, m, n - 1);
    }
  }

  lemma YearLength(y: nat)
    ensures DaysBeforeMonth(y, 13) == if Leap(y) then 366 else 365
  {
    var feb := DaysIn(y, 2);
    assert DaysBeforeMonth(y, 2) == 31;
    assert DaysBeforeMonth(y, 3) == 31 + feb;
    assert DaysBeforeMonth(y, 5) == 92 + feb;
    assert DaysBeforeMonth(y, 7) == 153 + feb;
    assert DaysBeforeMonth(y, 9) == 215 + feb;
    assert DaysBeforeMonth(y, 11) == 276 + feb;
  }

  lemma DayOrder(a: Timestamp, b: Timestamp)
    requires a.year < b.year || (a.year == b.year && (a.month < b.month || (a.month == b.month && a.day < b.day)))
    ensures Day(a) < Day(b)
  {
    if a.year < b.year {
      YearsApart(a.year, b.year);
      YearLength(a.year);
      MonthsApart(a.year, a.month, 13);
    } else if a.month < b.month {
      MonthsApart(a.year, a.month, b.month);
    }
  }

  lemma SameSecond(a: Timestamp, b: Timestamp)
    requires Seconds(a) == Seconds(b)
    ensures a == b
  {
    assert Day(a) == Day(b) && SecondOfDay(a) == SecondOfDay(b);
    if a.year < b.year || (a.year == b.year && (a.month < b.month || (a.month == b.month && a.day < b.day))) {
      DayOrder(a, b);
    } else if a.year != b.year || a.month != b.month || a.day != b.day {
      DayOrder(b, a);
    }
  }

  // ---------- text ----------

  /** The last `width` decimal digits of `n`. */
  function Digits(n: nat, width: nat): (s: string)
    ensures |s| == width
  {
    if width == 0 then "" else Digits(n / 10, width - 1) + [('0' as int + n % 10) as char]
  }

  function DateText(t: Timestamp): string {
    Digits(t.year, 4) + ("-" + (Digits(t.month, 2) + ("-" + Digits(t.day, 2))))
  }

  function ClockText(t: Timestamp): string {
    Digits(t.hour, 2) + (":" + (Digits(t.minute, 2) + (":" + Digits(t.second, 2))))
  }

  /** `offset` is the zone offset, which all timestamps of one operator share. */
  function Text(t: Timestamp, offset: string): string {
    DateText(t) + ("T" + (ClockText(t) + offset))
  }

  /** The 29th of February 2024, 23:05:09 UTC. */
  lemma TextExample()
    ensures Text(Date(2024, 2, 29, 23, 5, 9), "Z") == "2024-02-29T23:05:09Z"
  {
    TextExampleDate();
    TextExampleClock();
    hide DateText, ClockText;
  }

  lemma TextExampleDate()
    ensures DateText(Date(2024, 2, 29, 23, 5, 9)) == "2024-02-29"
  {
    FourDigits(2024);
    TwoDigits(2);
    TwoDigits(29);
    hide Digits;
  }

  lemma TextExampleClock()
    ensures ClockText(Date(2024, 2, 29, 23, 5, 9)) == "23:05:09"
  {
    TwoDigits(23);
    TwoDigits(5);
    TwoDigits(9);
    hide Digits;
  }

  /** The last second that has a text. */
  lemma LastText()
    ensures Text(Date(9999, 12, 31, 23, 59, 59), "Z") == "9999-12-31T23:59:59Z"
  {
    LastTextDate();
    LastTextClock();
    hide DateText, ClockText;
  }

  lemma LastTextDate()
    ensures DateText(Date(9999, 12, 31, 23, 59, 59)) == "9999-12-31"
  {
    FourDigits(9999);
    TwoDigits(12);
    TwoDigits(31);
    hide Digits;
  }

  lemma LastTextClock()
    ensures ClockText(Date(9999, 12, 31, 23, 59, 59)) == "23:59:59"
  {
    TwoDigits(23);
    TwoDigits(59);
    hide Digits;
  }

  lemma FourDigits(n: nat)
    requires n < 10000
    ensures Digits(n, 4) == [('0' as int + n / 1000) as char, ('0' as int + n / 100 % 10) as char,
                             ('0' as int + n / 10 % 10) as char, ('0' as int + n % 10) as char]
  {
    TwoDigits(n / 100);
    assert Digits(n, 4) == Digits(n / 10, 3) + [('0' as int + n % 10) as char];
    assert Digits(n / 10, 3) == Digits(n / 100, 2) + [('0' as int + n / 10 % 10) as char];
  }

  lemma TwoDigits(n: nat)
    requires n < 100
    ensures Digits(n, 2) == [('0' as int + n / 10) as char, ('0' as int + n % 10) as char]
  {
    assert Digits(n / 10, 1) == [('0' as int + n / 10) as char];
  }

  /** The order Go's `<` has on strings. */
  predicate Less(a: string, b: string) {
    b != [] && (a == [] || a[0] < b[0] || (a[0] == b[0] && Less(a[1..], b[1..])))
  }

  lemma {:induction false} LessIrreflexive(a: string)
    ensures !Less(a, a)
  {
    if a != [] {
      LessIrreflexive(a[1..]);
    }
  }

  lemma {:induction false} LessConcat(a: string, b: string, c: string, d: string)
    requires |a| == |b|
    ensures Less(a + c, b + d) <==> Less(a, b) || (a == b && Less(c, d))
  {
    if a == [] {
      assert a + c == c && b + d == d;
    } else {
      assert (a + c)[1..] == a[1..] + c && (b + d)[1..] == b[1..] + d;
      LessConcat(a[1..], b[1..], c, d);
      assert a == [a[0]] + a[1..] && b == [b[0]] + b[1..];
    }
  }

  ghost function Power10(k: nat): nat {
    if k == 0 then 1 else 10 * Power10(k - 1)
  }

  lemma {:induction false} DigitsOrder(m: nat, n: nat, width: nat)
    requires m < Power10(width) && n < Power10(width)
    ensures Less(Digits(m, width), Digits(n, width)) <==> m < n
    ensures Digits(m, width) == Digits(n, width) <==> m == n
  {
    if width > 0 {
      var a, b := [('0' as int + m % 10) as char], [('0' as int + n % 10) as char];
      DigitsOrder(m / 10, n / 10, width - 1);
      LessConcat(Digits(m / 10, width - 1), Digits(n / 10, width - 1), a, b);
      assert Less(a, b) <==> m % 10 < n % 10;
      var x, y := Digits(m, width), Digits(n, width);
      assert x[..width - 1] == Digits(m / 10, width - 1) && y[..width - 1] == Digits(n / 10, width - 1);
      assert x[width - 1] == a[0] && y[width - 1] == b[0];
    }
  }

  /** Two fields of fixed width, a separator, and whatever follows. */
  lemma FieldOrder(m: nat, n: nat, width: nat, sep: string, c: string, d: string)
    requires m < Power10(width) && n < Power10(width)
    ensures Less(Digits(m, width) + (sep + c), Digits(n, width) + (sep + d)) <==> m < n || (m == n && Less(c, d))
    ensures Digits(m, width) + (sep + c) == Digits(n, width) + (sep + d) <==> m == n && c == d
  {
    DigitsOrder(m, n, width);
    LessConcat(Digits(m, width), Digits(n, width), sep + c, sep + d);
    LessConcat(sep, sep, c, d);
    LessIrreflexive(sep);
    var x, y := Digits(m, width) + (sep + c), Digits(n, width) + (sep + d);
    assert x[..width] == Digits(m, width) && y[..width] == Digits(n, width);
    assert x[width + |sep|..] == c && y[width + |sep|..] == d;
  }

  lemma DateTextOrder(a: Timestamp, b: Timestamp)
    ensures Less(DateText(a), DateText(b)) <==> Day(a) < Day(b)
    ensures DateText(a) == DateText(b) <==> Day(a) == Day(b)
  {
    assert Power10(2) == 100 && Power10(4) == 10000;
    DigitsOrder(a.day, b.day, 2);
    FieldOrder(a.month, b.month, 2, "-", Digits(a.day, 2), Digits(b.day, 2));
    FieldOrder(a.year, b.year, 4, "-", Digits(a.month, 2) + ("-" + Digits(a.day, 2)), Digits(b.month, 2) + ("-" + Digits(b.day, 2)));
    if Less(DateText(a), DateText(b)) {
      DayOrder(a, b);
    } else if DateText(a) != DateText(b) {
      DayOrder(b, a);
    }
  }

  lemma ClockTextOrder(a: Timestamp, b: Timestamp)
    ensures Less(ClockText(a), ClockText(b)) <==> SecondOfDay(a) < SecondOfDay(b)
    ensures ClockText(a) == ClockText(b) <==> SecondOfDay(a) == SecondOfDay(b)
  {
    assert Power10(2) == 100;
    DigitsOrder(a.second, b.second, 2);
    FieldOrder(a.minute, b.minute, 2, ":", Digits(a.second, 2), Digits(b.second, 2));
    FieldOrder(a.hour, b.hour, 2, ":", Digits(a.minute, 2) + (":" + Digits(a.second, 2)), Digits(b.minute, 2) + (":" + Digits(b.second, 2)));
  }

  /** Comparing the texts of two timestamps with one offset compares the times. */
  lemma {:induction false} Chronological(a: Timestamp, b: Timestamp, offset: string)
    ensures Less(Text(a, offset), Text(b, offset)) <==> Seconds(a) < Seconds(b)
    ensures Text(a, offset) == Text(b, offset) <==> Seconds(a) == Seconds(b)
  {
    DateTextOrder(a, b);
    ClockTextOrder(a, b);
    LessIrreflexive(offset);
    LessIrreflexive("T");
    LessConcat(DateText(a), DateText(b), "T" + (ClockText(a) + offset), "T" + (ClockText(b) + offset));
    LessConcat("T", "T", ClockText(a) + offset, ClockText(b) + offset);
    LessConcat(ClockText(a), ClockText(b), offset, offset);
    var x, y := Text(a, offset), Text(b, offset);
    assert x[..10] == DateText(a) && y[..10] == DateText(b);
    assert x[11..19] == ClockText(a) && y[11..19] == ClockText(b);
  }
}
