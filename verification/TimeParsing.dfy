/** Reading a stored time back: the text loses nothing, and the calendar behind it is the proleptic Gregorian one. */
module TimeParsing {
  import opened Prelude
  import opened Workflow
  import opened Timestamps

  // ------------------------------------------------------------------ the calendar in closed form

  /** The days of all years before `year`. */
  function DaysBeforeYear(year: nat): int {
    365 * year + (year + 3) / 4 - (year + 99) / 100 + (year + 399) / 400
  }

  const MONTH_STARTS: seq<int> := [0, 31, 59, 90, 120, 151, 181, 212, 243, 273, 304, 334]

  /** The days of the year before the month. */
  function DaysBeforeMonth(year: nat, month: nat): int
    requires 1 <= month <= 12
  {
    MONTH_STARTS[month - 1] + if month > 2 && (DaysBeforeYear(year + 1) - DaysBeforeYear(year) == 366) then 1 else 0
  }

  /** The number of the second that a date and a time of day name. */
  function SecondsOf(c: Civil): int
    requires ValidCivil(c)
  {
    (DaysBeforeYear(c.year) + DaysBeforeMonth(c.year, c.month) + c.day - 1) * 86400 + c.hour * 3600 + c.minute * 60
        + c.second
  }

  lemma YearLength(year: nat)
    ensures DaysBeforeYear(year + 1) - DaysBeforeYear(year) == if LeapYear(year) then 366 else 365
  {
    var q, r := year / 400, year % 400;
    var c, d := r / 100, r % 100;
    var f, g := d / 4, d % 4;
    assert year == 400 * q + 100 * c + 4 * f + g;
    assert 0 <= c < 4 && 0 <= f < 25 && 0 <= g < 4;
    hide LeapYear;
    YearsBefore(q, c, f, g);
    YearsBeforeNext(q, c, f, g);
    LeapParts(q, c, f, g);
  }

  lemma YearsBefore(q: nat, c: nat, f: nat, g: nat)
    requires c < 4 && f < 25 && g < 4
    ensures var year := 400 * q + 100 * c + 4 * f + g;
            && (year + 3) / 4 == 100 * q + 25 * c + f + (if g > 0 then 1 else 0)
            && (year + 99) / 100 == 4 * q + c + (if f > 0 || g > 0 then 1 else 0)
            && (year + 399) / 400 == q + (if c > 0 || f > 0 || g > 0 then 1 else 0)
  {
  }

  lemma YearsBeforeNext(q: nat, c: nat, f: nat, g: nat)
    requires c < 4 && f < 25 && g < 4
    ensures var year := 400 * q + 100 * c + 4 * f + g;
            && (year + 4) / 4 == 100 * q + 25 * c + f + 1
            && (year + 100) / 100 == 4 * q + c + 1
            && (year + 400) / 400 == q + 1
  {
  }

  lemma LeapParts(q: nat, c: nat, f: nat, g: nat)
    requires c < 4 && f < 25 && g < 4
    ensures LeapYear(400 * q + 100 * c + 4 * f + g) <==> g == 0 && (f > 0 || c == 0)
  {
  }

  lemma MonthLength(year: nat, month: nat)
    requires 1 <= month <= 12
    ensures month < 12 ==> DaysBeforeMonth(year, month + 1) == DaysBeforeMonth(year, month) + DaysIn(year, month)
    ensures month == 12 ==>
              DaysBeforeMonth(year, month) + DaysIn(year, month) == DaysBeforeYear(year + 1) - DaysBeforeYear(year)
  {
    YearLength(year);
  }

  lemma NextDayFollows(c: Civil)
    requires ValidCivil(c)
    ensures ValidCivil(NextDay(c)) && SecondsOf(NextDay(c)) == SecondsOf(c) + 86400
  {
    hide DaysBeforeYear;
    MonthLength(c.year, c.month);
  }

  lemma NextSecondFollows(c: Civil)
    requires ValidCivil(c)
    ensures SecondsOf(NextSecond(c)) == SecondsOf(c) + 1
  {
    hide DaysBeforeYear, DaysBeforeMonth, NextDay;
    if c.second == 59 && c.minute == 59 && c.hour == 23 { NextDayFollows(c.(hour := 0, minute := 0, second := 0)); }
  }

  /** Counting seconds from the beginning of the year 0 gives each the date that names it. */
  lemma {:induction false} CalendarIsGregorian(n: nat)
    ensures SecondsOf(CivilAt(n)) == n
  {
    hide SecondsOf, NextSecond, ValidCivil;
    if n > 0 {
      CalendarIsGregorian(n - 1);
      NextSecondFollows(CivilAt(n - 1));
    } else {
      assert SecondsOf(Civil(0, 1, 1, 0, 0, 0)) == 0 by { FirstSecond(); }
    }
  }

  lemma FirstSecond()
    ensures ValidCivil(Civil(0, 1, 1, 0, 0, 0)) && SecondsOf(Civil(0, 1, 1, 0, 0, 0)) == 0
  {
  }

  // ------------------------------------------------------------------ reading digits

  /** What the digits of `s` stand for, the first of them counting for the `k`-th power of ten but one. */
  function Value(s: string, k: nat): int {
    if s == "" || k == 0 then 0 else (s[0] as int - '0' as int) * Power10(k - 1) + Value(s[1..], k - 1)
  }

  lemma LeadingAndRest(n: nat, k: nat)
    requires k > 0 && n < Power10(k)
    ensures n == Leading(n, k) * Power10(k - 1) + Remainder(n, k)
  {
  }

  lemma {:induction false} ReadsDigits(n: nat, k: nat)
    requires n < Power10(k)
    ensures Value(Digits(n, k), k) == n
  {
    if k > 0 {
      var rest := Digits(Remainder(n, k), k - 1);
      assert Digits(n, k)[1..] == rest;
      ReadsDigits(Remainder(n, k), k - 1);
      LeadingAndRest(n, k);
    }
  }

  lemma {:induction false} ReadsTrimmed(s: string, k: nat)
    requires |s| <= k
    ensures Value(Trim(s), k) == Value(s, k)
  {
    if AllZeros(s) {
      ReadsZeros(s, k);
    } else {
      assert Trim(s)[1..] == Trim(s[1..]);
      ReadsTrimmed(s[1..], k - 1);
    }
  }

  lemma {:induction false} ReadsZeros(s: string, k: nat)
    requires AllZeros(s) && |s| <= k
    ensures Value(s, k) == 0
  {
    if s != "" { ReadsZeros(s[1..], k - 1); }
  }

  lemma ReadsPad2(n: nat)
    requires n < 100
    ensures Value(Pad2(n), 2) == n && |Pad2(n)| == 2
  {
    TwoDigits(n);
    ReadsDigits(n, 2);
  }

  lemma ReadsPad4(n: nat)
    requires n < 10000
    ensures Value(Pad4(n), 4) == n && |Pad4(n)| == 4
  {
    FourDigits(n);
    ReadsDigits(n, 4);
  }

  // ------------------------------------------------------------------ reading a time

  /** The number in the columns from `from` to `to`. */
  function Field(s: string, from: nat, to: nat): int
    requires from <= to <= |s|
  {
    Value(s[from..to], to - from)
  }

  /** The date and time of day in the first 19 characters, if they are one. */
  function CivilIn(s: string): Option<Civil>
    requires |s| >= 19
  {
    var year, month, day := Field(s, 0, 4), Field(s, 5, 7), Field(s, 8, 10);
    var hour, minute, second := Field(s, 11, 13), Field(s, 14, 16), Field(s, 17, 19);
    if s[4] != '-' || s[7] != '-' || s[10] != 'T' || s[13] != ':' || s[16] != ':' then None
    else if year < 0 || month < 0 || day < 0 || hour < 0 || minute < 0 || second < 0 then None
    else
      var c := Civil(year, month, day, hour, minute, second);
      if ValidCivil(c) then Some(c) else None
  }

  /** Time text in UTC, read back. */
  function ParseTime(s: string): Option<int> {
    if |s| < 20 || s[|s| - 1] != 'Z' then None
    else
      match CivilIn(s)
      case None => None
      case Some(c) =>
        if |s| == 20 then Some(SecondsOf(c) * SECOND)
        else if s[19] != '.' then None
        else Some(SecondsOf(c) * SECOND + Value(s[20..|s| - 1], 9))
  }

  lemma TextParts(c: Civil, rest: string)
    requires Writable(c)
    ensures var s := CivilText(c) + rest;
            && |s| >= 19 && s[19..] == rest
            && s[0..4] == Pad4(c.year) && s[5..7] == Pad2(c.month) && s[8..10] == Pad2(c.day)
            && s[11..13] == Pad2(c.hour) && s[14..16] == Pad2(c.minute) && s[17..19] == Pad2(c.second)
            && s[4] == '-' && s[7] == '-' && s[10] == 'T' && s[13] == ':' && s[16] == ':'
  {
    ReadsPad4(c.year);
    ReadsPad2(c.month);
    ReadsPad2(c.day);
    ReadsPad2(c.hour);
    ReadsPad2(c.minute);
    ReadsPad2(c.second);
    hide Pad2, Pad4, Value;
  }

  lemma ReadsCivil(c: Civil, rest: string)
    requires Writable(c) && ValidCivil(c)
    ensures |CivilText(c) + rest| >= 19 && (CivilText(c) + rest)[19..] == rest
    ensures CivilIn(CivilText(c) + rest) == Some(c)
  {
    TextParts(c, rest);
    ReadsPad4(c.year);
    ReadsPad2(c.month);
    ReadsPad2(c.day);
    ReadsPad2(c.hour);
    ReadsPad2(c.minute);
    ReadsPad2(c.second);
    hide Pad2, Pad4, Value, CivilText;
  }

  lemma ReadsFraction(n: nat)
    requires n < SECOND
    ensures Value(Fraction(n), 9) == n
    ensures n != 0 ==> Fraction(n) != ""
  {
    NineDigits(n);
    ReadsDigits(n, 9);
    ReadsTrimmed(Digits(n, 9), 9);
    FractionIsEmpty(n);
  }

  lemma ParsesWhole(s: string, c: Civil)
    requires |s| >= 19 && s[19..] == "Z" && CivilIn(s) == Some(c) && ValidCivil(c)
    ensures ParseTime(s) == Some(SecondsOf(c) * SECOND)
  {
    hide CivilIn, SecondsOf, ValidCivil;
    assert s[|s| - 1] == s[19..][0];
  }

  lemma ParsesFraction(s: string, c: Civil, f: string)
    requires |s| >= 19 && s[19..] == "." + (f + "Z") && f != "" && CivilIn(s) == Some(c) && ValidCivil(c)
    ensures ParseTime(s) == Some(SecondsOf(c) * SECOND + Value(f, 9))
  {
    hide CivilIn, SecondsOf, ValidCivil, Value;
    var rest := s[19..];
    assert s[|s| - 1] == rest[|rest| - 1] == 'Z' && s[19] == rest[0] == '.';
    assert rest[1..|rest| - 1] == f by { assert rest[1..] == f + "Z"; }
    assert |s| == 19 + |rest| && s[20..|s| - 1] == rest[1..|rest| - 1];
  }

  lemma FractionParts(n: nat)
    requires n < SECOND
    ensures n == 0 ==> FractionText(n) + "Z" == "Z"
    ensures n != 0 ==> FractionText(n) + "Z" == "." + (Fraction(n) + "Z")
  {
    hide Fraction;
  }

  lemma ReadsTime(c: Civil, n: nat)
    requires Writable(c) && ValidCivil(c) && n < SECOND
    ensures ParseTime(CivilText(c) + (FractionText(n) + "Z")) == Some(SecondsOf(c) * SECOND + n)
  {
    hide CivilText, SecondsOf, Value, Fraction, CivilIn, ValidCivil, ParseTime, Writable, FractionText;
    var rest := FractionText(n) + "Z";
    ReadsCivil(c, rest);
    ReadsFraction(n);
    FractionParts(n);
    var s := CivilText(c) + rest;
    if n == 0 {
      ParsesWhole(s, c);
    } else {
      ParsesFraction(s, c, Fraction(n));
    }
  }

  /** Every time is read back from its text to the nanosecond. */
  lemma TextRoundTrip(t: int)
    requires Writes(t)
    ensures ParseTime(TimeText(t)) == Some(t)
  {
    hide CivilAt, CivilText, SecondsOf, ParseTime, FractionText;
    var q, n := t / SECOND, t % SECOND;
    Split(t, q, n);
    var c := CivilAt(q);
    assert Writable(c);
    CalendarIsGregorian(q);
    hide ValidCivil, Writable, Writes;
    ReadsTime(c, n);
    assert SecondsOf(c) * SECOND + n == t;
  }

  lemma Split(t: int, q: int, n: int)
    requires q == t / SECOND && n == t % SECOND
    ensures t == q * SECOND + n && 0 <= n < SECOND
  {
  }
}
