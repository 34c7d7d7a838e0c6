/** Times as the SQLite store keeps and compares them: RFC 3339 text in UTC, with the zeros at the end of the fraction
    dropped. */
module Timestamps {
  import opened Prelude
  import opened Workflow

  // ------------------------------------------------------------------ the calendar

  datatype Civil = Civil(year: nat, month: nat, day: nat, hour: nat, minute: nat, second: nat)

  predicate LeapYear(year: nat) {
    year % 4 == 0 && (year % 100 != 0 || year % 400 == 0)
  }

  function DaysIn(year: nat, month: nat): (n: nat)
    ensures 28 <= n <= 31
  {
    if month == 2 then (if LeapYear(year) then 29 else 28)
    else if month == 4 || month == 6 || month == 9 || month == 11 then 30
    else 31
  }

  predicate ValidCivil(c: Civil) {
    1 <= c.month <= 12 && 1 <= c.day <= DaysIn(c.year, c.month) && c.hour < 24 && c.minute < 60 && c.second < 60
  }

  function NextDay(c: Civil): Civil {
    if c.day < DaysIn(c.year, c.month) then c.(day := c.day + 1)
    else if c.month < 12 then c.(month := c.month + 1, day := 1)
    else c.(year := c.year + 1, month := 1, day := 1)
  }

  function NextSecond(c: Civil): Civil {
    if c.second < 59 then c.(second := c.second + 1)
    else if c.minute < 59 then c.(minute := c.minute + 1, second := 0)
    else if c.hour < 23 then c.(hour := c.hour + 1, minute := 0, second := 0)
    else NextDay(c.(hour := 0, minute := 0, second := 0))
  }

  /** The `n`-th second of the calendar, counted from the beginning of the year 0. */
  function CivilAt(n: nat): (c: Civil)
    ensures ValidCivil(c)
  {
    if n == 0 then Civil(0, 1, 1, 0, 0, 0) else NextSecond(CivilAt(n - 1))
  }

  predicate Earlier(c: Civil, d: Civil) {
    c.year < d.year || (c.year == d.year && (
    c.month < d.month || (c.month == d.month && (
    c.day < d.day || (c.day == d.day && (
    c.hour < d.hour || (c.hour == d.hour && (
    c.minute < d.minute || (c.minute == d.minute && c.second < d.second)))))))))
  }

  lemma {:induction false} LaterSecondsAreLater(m: nat, n: nat)
    requires m < n
    ensures Earlier(CivilAt(m), CivilAt(n))
  {
    if m < n - 1 { LaterSecondsAreLater(m, n - 1); }
  }

  // ------------------------------------------------------------------ text

  /** The byte order in which SQLite compares text; a string comes after its proper prefixes. */
  predicate TextLess(s: string, t: string) {
    |t| > 0 && (|s| == 0 || s[0] < t[0] || (s[0] == t[0] && TextLess(s[1..], t[1..])))
  }

  predicate TextLeq(s: string, t: string) {
    s == t || TextLess(s, t)
  }

  lemma {:induction false} CommonPart(a: string, s: string, t: string)
    ensures TextLess(a + s, a + t) <==> TextLess(s, t)
  {
    if a == "" {
      assert a + s == s && a + t == t;
    } else {
      CommonPart(a[1..], s, t);
      assert (a + s)[1..] == a[1..] + s && (a + t)[1..] == a[1..] + t;
    }
  }

  lemma {:induction false} LeadingPart(a: string, b: string, s: string, t: string)
    requires |a| == |b| && a != b
    ensures TextLess(a + s, b + t) <==> TextLess(a, b)
  {
    assert (a + s)[1..] == a[1..] + s && (b + t)[1..] == b[1..] + t;
    if a[0] == b[0] {
      assert a[1..] != b[1..] by { assert a == [a[0]] + a[1..] && b == [b[0]] + b[1..]; }
      LeadingPart(a[1..], b[1..], s, t);
    }
  }

  function Digit(d: nat): char
    requires d < 10
  {
    '0' + d as char
  }

  function Power10(k: nat): (p: nat)
    ensures p >= 1
  {
    if k == 0 then 1 else 10 * Power10(k - 1)
  }

  /** The first of the `k` decimal digits of `n`. */
  function Leading(n: nat, k: nat): (d: nat)
    requires k > 0 && n < Power10(k)
    ensures d < 10
  {
    n / Power10(k - 1)
  }

  /** What the other digits stand for. */
  function Remainder(n: nat, k: nat): (m: nat)
    requires k > 0
    ensures m < Power10(k - 1)
  {
    n % Power10(k - 1)
  }

  /** `n` in `k` decimal digits, from the most significant on. */
  function Digits(n: nat, k: nat): (s: string)
    requires n < Power10(k)
    ensures |s| == k && forall i :: 0 <= i < k ==> '0' <= s[i] <= '9'
  {
    if k == 0 then "" else [Digit(Leading(n, k))] + Digits(Remainder(n, k), k - 1)
  }

  lemma HeadsFirst(a: nat, b: nat, s: string, t: string)
    requires a < 10 && b < 10
    ensures TextLess([Digit(a)] + s, [Digit(b)] + t) <==> a < b || (a == b && TextLess(s, t))
    ensures [Digit(a)] + s == [Digit(b)] + t <==> a == b && s == t
  {
    var x, y := [Digit(a)] + s, [Digit(b)] + t;
    assert x[0] == Digit(a) && y[0] == Digit(b) && x[1..] == s && y[1..] == t;
  }

  lemma LeadingDecides(m: nat, n: nat, k: nat)
    requires k > 0 && m < Power10(k) && n < Power10(k)
    ensures Leading(m, k) < Leading(n, k) ==> m < n
    ensures Leading(m, k) == Leading(n, k)
            ==> (m < n <==> Remainder(m, k) < Remainder(n, k)) && (m == n <==> Remainder(m, k) == Remainder(n, k))
  {
    Quotients(m, n, Power10(k - 1));
  }

  lemma Quotients(m: nat, n: nat, p: nat)
    requires p > 0
    ensures m / p < n / p ==> m < n
    ensures m / p == n / p ==> (m < n <==> m % p < n % p) && (m == n <==> m % p == n % p)
  {
    assert m == p * (m / p) + m % p && n == p * (n / p) + n % p;
    if m / p < n / p {
      assert p * (m / p) + p <= p * (n / p) by { assert p * (m / p + 1) <= p * (n / p); }
    }
  }

  lemma DigitsUnfold(n: nat, k: nat)
    requires n < Power10(k)
    ensures k == 0 ==> Digits(n, k) == "" && n == 0
    ensures k > 0 ==> Digits(n, k) == [Digit(Leading(n, k))] + Digits(Remainder(n, k), k - 1)
  {
    hide Leading, Remainder;
  }

  /** Equally long numerals are in the order of their numbers. */
  lemma {:induction false} DigitsOrder(m: nat, n: nat, k: nat)
    requires m < Power10(k) && n < Power10(k)
    ensures TextLess(Digits(m, k), Digits(n, k)) <==> m < n
    ensures Digits(m, k) == Digits(n, k) <==> m == n
    decreases k
  {
    hide TextLess, Power10, Digit, Leading, Remainder, Digits;
    DigitsUnfold(m, k);
    DigitsUnfold(n, k);
    if k == 0 {
      assert !TextLess("", "") by { EmptyIsLeast(""); }
    } else {
      DigitsOrder(Remainder(m, k), Remainder(n, k), k - 1);
      LeadingDecides(m, n, k);
      LeadingDecides(n, m, k);
      HeadsFirst(Leading(m, k), Leading(n, k), Digits(Remainder(m, k), k - 1), Digits(Remainder(n, k), k - 1));
    }
  }

  lemma EmptyIsLeast(s: string)
    ensures !TextLess(s, "")
    ensures TextLess("", s) <==> s != ""
  {
  }

  // ------------------------------------------------------------------ whole seconds

  predicate Writable(c: Civil) {
    c.year < 10000 && c.month < 100 && c.day < 100 && c.hour < 100 && c.minute < 100 && c.second < 100
  }

  lemma TwoDigits(n: nat)
    requires n < 100
    ensures n < Power10(2)
  {
    assert Power10(2) == 100;
  }

  lemma FourDigits(n: nat)
    requires n < 10000
    ensures n < Power10(4)
  {
    assert Power10(4) == 10000;
  }

  function Pad2(n: nat): (s: string)
    requires n < 100
    ensures |s| == 2
  {
    TwoDigits(n);
    Digits(n, 2)
  }

  function Pad4(n: nat): (s: string)
    requires n < 10000
    ensures |s| == 4
  {
    FourDigits(n);
    Digits(n, 4)
  }

  function TimeOfDay(c: Civil): (s: string)
    requires Writable(c)
    ensures |s| == 9
  {
    "T" + (Pad2(c.hour) + (":" + (Pad2(c.minute) + (":" + Pad2(c.second)))))
  }

  function CivilText(c: Civil): (s: string)
    requires Writable(c)
    ensures |s| == 19
  {
    Pad4(c.year) + ("-" + (Pad2(c.month) + ("-" + (Pad2(c.day) + TimeOfDay(c)))))
  }

  /** A field of fixed width in front decides, unless it is the same. */
  lemma FieldFirst2(m: nat, n: nat, s: string, t: string)
    requires m < 100 && n < 100
    ensures TextLess(Pad2(m) + s, Pad2(n) + t) <==> m < n || (m == n && TextLess(s, t))
  {
    TwoDigits(m);
    TwoDigits(n);
    hide TextLess, Digits, Power10;
    DigitsOrder(m, n, 2);
    if m == n { CommonPart(Pad2(m), s, t); } else { LeadingPart(Pad2(m), Pad2(n), s, t); }
  }

  lemma FieldFirst4(m: nat, n: nat, s: string, t: string)
    requires m < 10000 && n < 10000
    ensures TextLess(Pad4(m) + s, Pad4(n) + t) <==> m < n || (m == n && TextLess(s, t))
  {
    FourDigits(m);
    FourDigits(n);
    hide TextLess, Digits, Power10;
    DigitsOrder(m, n, 4);
    if m == n { CommonPart(Pad4(m), s, t); } else { LeadingPart(Pad4(m), Pad4(n), s, t); }
  }

  lemma TimeOfDayOrder(c: Civil, d: Civil)
    requires Writable(c) && Writable(d)
    ensures TextLess(TimeOfDay(c), TimeOfDay(d)) <==>
            c.hour < d.hour || (c.hour == d.hour
              && (c.minute < d.minute || (c.minute == d.minute && c.second < d.second)))
  {
    hide TextLess, Pad2;
    var s, t := ":" + Pad2(c.second), ":" + Pad2(d.second);
    FieldFirst2(c.second, d.second, "", "");
    assert Pad2(c.second) + "" == Pad2(c.second) && Pad2(d.second) + "" == Pad2(d.second);
    EmptyIsLeast("");
    CommonPart(":", Pad2(c.second), Pad2(d.second));
    FieldFirst2(c.minute, d.minute, s, t);
    CommonPart(":", Pad2(c.minute) + s, Pad2(d.minute) + t);
    FieldFirst2(c.hour, d.hour, ":" + (Pad2(c.minute) + s), ":" + (Pad2(d.minute) + t));
    CommonPart("T", Pad2(c.hour) + (":" + (Pad2(c.minute) + s)), Pad2(d.hour) + (":" + (Pad2(d.minute) + t)));
  }

  /** The text of whole seconds is in the order of the seconds. */
  lemma CivilOrder(c: Civil, d: Civil)
    requires Writable(c) && Writable(d)
    ensures TextLess(CivilText(c), CivilText(d)) <==> Earlier(c, d)
  {
    hide TextLess, Pad2, Pad4, TimeOfDay;
    TimeOfDayOrder(c, d);
    var s, t := Pad2(c.day) + TimeOfDay(c), Pad2(d.day) + TimeOfDay(d);
    FieldFirst2(c.day, d.day, TimeOfDay(c), TimeOfDay(d));
    CommonPart("-", s, t);
    FieldFirst2(c.month, d.month, "-" + s, "-" + t);
    CommonPart("-", Pad2(c.month) + ("-" + s), Pad2(d.month) + ("-" + t));
    FieldFirst4(c.year, d.year, "-" + (Pad2(c.month) + ("-" + s)), "-" + (Pad2(d.month) + ("-" + t)));
  }

  // ------------------------------------------------------------------ fractions

  predicate AllDigits(s: string) {
    forall i :: 0 <= i < |s| ==> '0' <= s[i] <= '9'
  }

  predicate AllZeros(s: string) {
    forall i :: 0 <= i < |s| ==> s[i] == '0'
  }

  /** The digits without the zeros at the end. */
  function Trim(s: string): (r: string)
    ensures AllDigits(s) ==> AllDigits(r)
    ensures r == "" <==> AllZeros(s)
  {
    if AllZeros(s) then "" else [s[0]] + Trim(s[1..])
  }

  lemma HeadDecides(a: char, b: char, s: string, t: string)
    ensures TextLess([a] + s, [b] + t) <==> a < b || (a == b && TextLess(s, t))
    ensures [a] + s < [b] + t <==> a == b && s < t
  {
    var x, y := [a] + s, [b] + t;
    assert x[0] == a && y[0] == b && x[1..] == s && y[1..] == t;
    if a == b && s < t {
      assert forall i :: 0 <= i < |x| ==> x[i] == y[i];
    }
    if x < y {
      assert forall i :: 0 <= i < |s| ==> s[i] == x[i + 1] == y[i + 1] == t[i];
    }
  }

  lemma ZerosAreLeast(x: string, y: string)
    requires |x| == |y| && AllDigits(y) && AllZeros(x)
    ensures TextLess(x, y) <==> !AllZeros(y)
    ensures !TextLess(y, x)
  {
    if x != "" { ZerosAreLeast(x[1..], y[1..]); }
  }

  /** Trimmed digits, closed by the Z: right unless one is the beginning of the other, and then the wrong way round. */
  lemma {:induction false} TrimOrder(x: string, y: string)
    requires |x| == |y| && AllDigits(x) && AllDigits(y)
    ensures TextLess(Trim(x) + "Z", Trim(y) + "Z")
            <==> Trim(y) < Trim(x) || (!(Trim(x) < Trim(y)) && TextLess(x, y))
  {
    if AllZeros(x) {
      ZerosAreLeast(x, y);
      if !AllZeros(y) { assert (Trim(y) + "Z")[0] == y[0]; }
    } else if AllZeros(y) {
      ZerosAreLeast(y, x);
      assert (Trim(x) + "Z")[0] == x[0];
    } else {
      TrimOrder(x[1..], y[1..]);
      assert x == [x[0]] + x[1..] && y == [y[0]] + y[1..];
      assert Trim(x) + "Z" == [x[0]] + (Trim(x[1..]) + "Z") && Trim(y) + "Z" == [y[0]] + (Trim(y[1..]) + "Z");
      hide TextLess, Trim;
      HeadDecides(x[0], y[0], x[1..], y[1..]);
      HeadDecides(x[0], y[0], Trim(x[1..]) + "Z", Trim(y[1..]) + "Z");
      HeadDecides(x[0], y[0], Trim(x[1..]), Trim(y[1..]));
      HeadDecides(y[0], x[0], Trim(y[1..]), Trim(x[1..]));
    }
  }

  lemma NineDigits(n: nat)
    requires n < SECOND
    ensures n < Power10(9)
  {
    assert Power10(9) == 1_000_000_000;
  }

  function Fraction(n: nat): (s: string)
    requires n < SECOND
  {
    NineDigits(n);
    Trim(Digits(n, 9))
  }

  /** The fraction with its point, or nothing for a whole second. */
  function FractionText(n: nat): string
    requires n < SECOND
  {
    if n == 0 then "" else "." + Fraction(n)
  }

  lemma {:induction false} ZeroDigits(n: nat, k: nat)
    requires n < Power10(k)
    ensures AllZeros(Digits(n, k)) <==> n == 0
    decreases k
  {
    hide Leading, Remainder, Power10;
    DigitsUnfold(n, k);
    if k > 0 {
      ZeroDigits(Remainder(n, k), k - 1);
      ZeroHead(n, k);
      var s := Digits(n, k);
      assert s[1..] == Digits(Remainder(n, k), k - 1);
      assert AllZeros(s) <==> s[0] == '0' && AllZeros(s[1..]) by {
        assert forall i {:trigger s[i]} :: 1 <= i < |s| ==> s[i] == s[1..][i - 1];
      }
    }
  }

  lemma ZeroHead(n: nat, k: nat)
    requires k > 0 && n < Power10(k)
    ensures n == 0 <==> Leading(n, k) == 0 && Remainder(n, k) == 0
  {
  }

  lemma PointFirst(s: string)
    ensures TextLess("." + s, "Z") && !TextLess("Z", "." + s)
  {
    assert ("." + s)[0] == '.' && "Z"[0] == 'Z';
  }

  lemma FractionIsEmpty(n: nat)
    requires n < SECOND
    ensures Fraction(n) == "" <==> n == 0
  {
    NineDigits(n);
    hide Digits, Power10;
    ZeroDigits(n, 9);
  }

  lemma FractionDigits(m: nat, n: nat)
    requires m < SECOND && n < SECOND
    ensures TextLess(Fraction(m) + "Z", Fraction(n) + "Z")
            <==> Fraction(n) < Fraction(m) || (!(Fraction(m) < Fraction(n)) && m < n)
  {
    NineDigits(m);
    NineDigits(n);
    hide Digits, Power10, TextLess, Trim;
    DigitsOrder(m, n, 9);
    TrimOrder(Digits(m, 9), Digits(n, 9));
  }

  lemma Pointed(n: nat)
    requires n < SECOND
    ensures FractionText(n) + "Z" == if n == 0 then "Z" else "." + (Fraction(n) + "Z")
  {
    hide Fraction;
  }

  /** Fractions of the same second, as text. */
  lemma FractionOrder(m: nat, n: nat)
    requires m < SECOND && n < SECOND
    ensures TextLess(FractionText(m) + "Z", FractionText(n) + "Z")
            <==> Fraction(n) < Fraction(m) || (!(Fraction(m) < Fraction(n)) && m < n)
  {
    hide Fraction, FractionText, TextLess;
    Pointed(m);
    Pointed(n);
    FractionIsEmpty(m);
    FractionIsEmpty(n);
    IrreflexiveText("Z");
    if m == 0 {
      PointFirst(Fraction(n) + "Z");
    } else if n == 0 {
      PointFirst(Fraction(m) + "Z");
    } else {
      FractionDigits(m, n);
      CommonPart(".", Fraction(m) + "Z", Fraction(n) + "Z");
    }
  }

  lemma {:induction false} IrreflexiveText(s: string)
    ensures !TextLess(s, s)
  {
    if s != "" { IrreflexiveText(s[1..]); }
  }

  // ------------------------------------------------------------------ times

  /** Nanoseconds since the beginning of the year 0, up to the end of the year 9999. */
  predicate Writes(t: int) {
    t >= 0 && CivilAt(t / SECOND).year < 10000
  }

  function TimeText(t: int): string
    requires Writes(t)
  {
    CivilText(CivilAt(t / SECOND)) + (FractionText(t % SECOND) + "Z")
  }

  lemma SameSecond(t: int, u: int)
    requires t / SECOND == u / SECOND
    ensures t < u <==> t % SECOND < u % SECOND
    ensures t < u + SECOND && u < t + SECOND
  {
  }

  /** Times of different seconds compare as text as they do as times. */
  lemma DifferentSeconds(t: int, u: int)
    requires Writes(t) && Writes(u) && t / SECOND < u / SECOND
    ensures TextLess(TimeText(t), TimeText(u)) && !TextLess(TimeText(u), TimeText(t)) && TimeText(t) != TimeText(u)
  {
    var c, d := CivilAt(t / SECOND), CivilAt(u / SECOND);
    hide CivilAt, TextLess, CivilText, FractionText, ValidCivil;
    LaterSecondsAreLater(t / SECOND, u / SECOND);
    assert Writable(c) && Writable(d);
    CivilOrder(c, d);
    CivilOrder(d, c);
    CivilOrder(c, c);
    assert CivilText(c) != CivilText(d);
    LeadingPart(CivilText(c), CivilText(d), FractionText(t % SECOND) + "Z", FractionText(u % SECOND) + "Z");
    LeadingPart(CivilText(d), CivilText(c), FractionText(u % SECOND) + "Z", FractionText(t % SECOND) + "Z");
    assert TimeText(t)[..19] == CivilText(c) && TimeText(u)[..19] == CivilText(d);
  }

  /** Within one second the text is wrong exactly when one fraction is the beginning of the other. */
  lemma WithinOneSecond(t: int, u: int)
    requires Writes(t) && Writes(u) && t / SECOND == u / SECOND
    ensures TextLess(TimeText(t), TimeText(u)) <==>
              || Fraction(u % SECOND) < Fraction(t % SECOND)
              || (!(Fraction(t % SECOND) < Fraction(u % SECOND)) && t < u)
  {
    assert Writable(CivilAt(t / SECOND));
    hide CivilAt, TextLess, CivilText, FractionText, ValidCivil, Fraction;
    SameSecond(t, u);
    CommonPart(CivilText(CivilAt(t / SECOND)), FractionText(t % SECOND) + "Z", FractionText(u % SECOND) + "Z");
    FractionOrder(t % SECOND, u % SECOND);
  }

  /** One time lies in the same second as the other, and its fraction is the beginning of the other's. */
  predicate CutShort(t: int, u: int)
    requires Writes(t) && Writes(u)
  {
    t / SECOND == u / SECOND && Fraction(t % SECOND) < Fraction(u % SECOND)
  }

  /** Text comparison is right exactly when neither time is the other cut short. */
  lemma TextOrderExactly(t: int, u: int)
    requires Writes(t) && Writes(u) && t != u
    ensures (TextLess(TimeText(t), TimeText(u)) <==> t < u) <==> !CutShort(t, u) && !CutShort(u, t)
  {
    hide TextLess, Fraction, TimeText, Writes;
    if t / SECOND < u / SECOND {
      DifferentSeconds(t, u);
    } else if u / SECOND < t / SECOND {
      DifferentSeconds(u, t);
    } else {
      WithinOneSecond(t, u);
      if CutShort(t, u) { CutShortIsEarlier(t, u); }
      if CutShort(u, t) { CutShortIsEarlier(u, t); }
    }
  }

  lemma {:induction false} PrefixIsSmaller(x: string, y: string)
    requires |x| == |y| && AllDigits(x) && AllDigits(y) && Trim(x) < Trim(y)
    ensures TextLess(x, y)
  {
    if AllZeros(x) {
      ZerosAreLeast(x, y);
    } else {
      assert x == [x[0]] + x[1..] && y == [y[0]] + y[1..];
      HeadDecides(x[0], y[0], Trim(x[1..]), Trim(y[1..]));
      PrefixIsSmaller(x[1..], y[1..]);
    }
  }

  lemma CutShortIsEarlier(t: int, u: int)
    requires Writes(t) && Writes(u) && CutShort(t, u)
    ensures t < u
  {
    var m, n := t % SECOND, u % SECOND;
    NineDigits(m);
    NineDigits(n);
    SameSecond(t, u);
    hide Digits, Power10, CivilAt, Trim, TextLess;
    PrefixIsSmaller(Digits(m, 9), Digits(n, 9));
    DigitsOrder(m, n, 9);
  }

  /** What the store selects as due is due within less than a second, and what has been due for a second is selected. */
  lemma OffByLessThanASecond(due: int, now: int)
    requires Writes(due) && Writes(now)
    ensures TextLeq(TimeText(due), TimeText(now)) ==> due < now + SECOND
    ensures due + SECOND <= now ==> TextLeq(TimeText(due), TimeText(now))
  {
    hide TextLess, TimeText, Writes;
    if due / SECOND > now / SECOND {
      DifferentSeconds(now, due);
    } else if due / SECOND < now / SECOND {
      DifferentSeconds(due, now);
    } else {
      SameSecond(due, now);
    }
  }

  /** A timer due on the second is passed over for the rest of that second: its text is greater than every later one
      in it. */
  lemma WholeSecondsAreLate(due: int, now: int)
    requires Writes(due) && Writes(now) && due % SECOND == 0 && due < now < due + SECOND
    ensures !TextLeq(TimeText(due), TimeText(now))
  {
    var n := now % SECOND;
    assert due / SECOND == now / SECOND && n > 0;
    NineDigits(n);
    NineDigits(0);
    hide Digits, Power10, CivilAt, TextLess, TimeText;
    ZeroDigits(0, 9);
    ZeroDigits(n, 9);
    WithinOneSecond(due, now);
    WithinOneSecond(now, due);
    TextDiffers(due, now);
  }

  lemma TextDiffers(t: int, u: int)
    requires Writes(t) && Writes(u) && TextLess(TimeText(u), TimeText(t))
    ensures TimeText(t) != TimeText(u)
  {
    hide TimeText;
    IrreflexiveText(TimeText(t));
  }
}
