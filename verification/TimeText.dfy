/** The text every repository stores for a time under SQLite (`timeValue`) and the
    parser that reads it back (`parseTime`).  An instant is a number of nanoseconds
    since 0000-01-01T00:00:00Z. */
module TimeText {
  import opened Text
  import opened Calendar

  type Instant = int

  function SecondOf(t: Instant): int { t / 1_000_000_000 }

  function NanosOf(t: Instant): (n: nat)
    ensures n < 1_000_000_000
  {
    t % 1_000_000_000
  }

  /** The instants of the years 0000-9999: 3652425 days. */
  predicate FourDigitYear(t: Instant) {
    0 <= t < 3652425 * 86400 * 1_000_000_000
  }

  /** These are the instants whose UTC year is written with exactly four digits. */
  lemma YearHasFourDigits(t: Instant)
    ensures FourDigitYear(t) <==> 0 <= DateOf(SecondOf(t) / 86400).year < 10000
  {
    hide DateOf, DaysBeforeYear;
    YearOfDay(SecondOf(t) / 86400, 0, 10000);
    FourDigitDays();
    DayRange(t);
  }

  lemma FourDigitDays()
    ensures DaysBeforeYear(0) == 0 && DaysBeforeYear(10000) == 3652425
  {
  }

  lemma DayRange(t: Instant)
    ensures FourDigitYear(t) <==> 0 <= SecondOf(t) / 86400 < 3652425
  {
  }

  // ----- formatting (RFC3339Nano in UTC)

  function YearText(year: int): string {
    if 0 <= year < 10000 then Decimal(year, 4)
    else if year < 0 then "-" + (if -year < 10000 then Decimal(-year, 4) else DecimalText(-year))
    else DecimalText(year)
  }

  function DateText(day: int): string {
    var date := DateOf(day);
    YearText(date.year) + "-" + Decimal(date.month, 2) + "-" + Decimal(date.day, 2)
  }

  function ClockText(second: nat): (s: string)
    requires second < 86400
    ensures |s| == 8
  {
    Decimal(second / 60 / 60, 2) + ":" + Decimal(second / 60 % 60, 2) + ":" + Decimal(second % 60, 2)
  }

  /** Everything before the fraction. */
  function SecondText(second: int): string {
    DateText(second / 86400) + "T" + ClockText(second % 86400)
  }

  /** The digits after the decimal point, trailing zeros removed. */
  function FractionDigits(nanos: nat): (s: string)
    requires nanos < 1_000_000_000
    ensures AllDigits(s)
  {
    TrimZeros(Decimal(nanos, 9))
  }

  function FractionText(nanos: nat): string
    requires nanos < 1_000_000_000
  {
    Pointed(FractionDigits(nanos))
  }

  /** What `timeValue` stores for an instant. */
  function TimeValue(t: Instant): string {
    SecondText(SecondOf(t)) + FractionText(NanosOf(t)) + "Z"
  }

  // ----- order of whole seconds

  lemma DateTextWidth(day: int)
    requires 0 <= DateOf(day).year < 10000
    ensures |DateText(day)| == 10
  {
  }

  lemma SecondTextWidth(second: int)
    requires 0 <= DateOf(second / 86400).year < 10000
    ensures |SecondText(second)| == 19
  {
  }

  predicate FieldLess(a: string, b: string, x: string, y: string) {
    |a| == |b| && (LexLess(a, b) || (a == b && LexLess(x, y)))
  }

  lemma FieldOrder(a: string, b: string, x: string, y: string)
    requires FieldLess(a, b, x, y)
    ensures LexLess(a + x, b + y)
  {
    if LexLess(a, b) {
      LexLessPrefix(a, b, x, y);
    } else {
      LexCommonPrefix(a, x, y);
    }
  }

  lemma Reassociate(a: string, sep: string, b: string, c: string)
    ensures a + sep + b + sep + c == a + (sep + (b + (sep + c)))
  {
  }

  /** Three fixed-width fields with separators compare field by field. */
  lemma ThreeFieldOrder(sep: string, a: string, b: string, c: string, a': string, b': string, c': string)
    requires |a| == |a'| && |b| == |b'| && |c| == |c'|
    requires LexLess(a, a') || (a == a' && (LexLess(b, b') || (b == b' && LexLess(c, c'))))
    ensures LexLess(a + sep + b + sep + c, a' + sep + b' + sep + c')
  {
    Reassociate(a, sep, b, c);
    Reassociate(a', sep, b', c');
    if LexLess(a, a') {
      LexLessPrefix(a, a', sep + (b + (sep + c)), sep + (b' + (sep + c')));
    } else {
      TwoFieldOrder(sep, b, c, b', c');
      LexCommonPrefix(a, sep + (b + (sep + c)), sep + (b' + (sep + c')));
    }
  }

  lemma TwoFieldOrder(sep: string, b: string, c: string, b': string, c': string)
    requires |b| == |b'| && |c| == |c'|
    requires LexLess(b, b') || (b == b' && LexLess(c, c'))
    ensures LexLess(sep + (b + (sep + c)), sep + (b' + (sep + c')))
  {
    LexCommonPrefix(sep, b + (sep + c), b' + (sep + c'));
    LexCommonPrefix(sep, c, c');
    FieldOrder(b, b', sep + c, sep + c');
  }

  lemma DecimalFields(m: nat, n: nat, width: nat)
    requires m < Pow10(width) && n < Pow10(width)
    ensures m < n ==> LexLess(Decimal(m, width), Decimal(n, width))
  {
    if m < n {
      DecimalOrder(m, n, width);
    }
  }

  lemma DateFieldsOrder(a: Date, b: Date)
    requires ValidDate(a) && ValidDate(b) && Earlier(a, b)
    requires 0 <= a.year < 10000 && 0 <= b.year < 10000
    ensures LexLess(Decimal(a.year, 4) + "-" + Decimal(a.month, 2) + "-" + Decimal(a.day, 2),
                    Decimal(b.year, 4) + "-" + Decimal(b.month, 2) + "-" + Decimal(b.day, 2))
  {
    assert Pow10(2) == 100 && Pow10(4) == 100 * Pow10(2);
    DecimalFields(a.year, b.year, 4);
    DecimalFields(a.month, b.month, 2);
    DecimalFields(a.day, b.day, 2);
    ThreeFieldOrder("-", Decimal(a.year, 4), Decimal(a.month, 2), Decimal(a.day, 2),
                    Decimal(b.year, 4), Decimal(b.month, 2), Decimal(b.day, 2));
  }

  lemma DateTextOrder(d: int, e: int)
    requires 0 <= DateOf(d).year < 10000 && 0 <= DateOf(e).year < 10000
    requires d < e
    ensures LexLess(DateText(d), DateText(e))
  {
    DayNumberOrder(DateOf(d), DateOf(e));
    DateFieldsOrder(DateOf(d), DateOf(e));
  }

  predicate ClockLess(s: nat, t: nat) {
    || s / 60 / 60 < t / 60 / 60
    || (s / 60 / 60 == t / 60 / 60 && (s / 60 % 60 < t / 60 % 60 || (s / 60 % 60 == t / 60 % 60 && s % 60 < t % 60)))
  }

  lemma Split60(x: nat, y: nat)
    requires x <= y
    ensures x / 60 < y / 60 || (x / 60 == y / 60 && x % 60 <= y % 60)
    ensures x < y && x / 60 == y / 60 ==> x % 60 < y % 60
  {
  }

  lemma ClockSplit(s: nat, t: nat)
    requires s < t
    ensures ClockLess(s, t)
  {
    Split60(s, t);
    Split60(s / 60, t / 60);
  }

  lemma ClockTextOrder(s: nat, t: nat)
    requires s < t < 86400
    ensures LexLess(ClockText(s), ClockText(t))
  {
    ClockSplit(s, t);
    assert Pow10(2) == 100;
    DecimalFields(s / 60 / 60, t / 60 / 60, 2);
    DecimalFields(s / 60 % 60, t / 60 % 60, 2);
    DecimalFields(s % 60, t % 60, 2);
    ThreeFieldOrder(":", Decimal(s / 60 / 60, 2), Decimal(s / 60 % 60, 2), Decimal(s % 60, 2),
                    Decimal(t / 60 / 60, 2), Decimal(t / 60 % 60, 2), Decimal(t % 60, 2));
  }

  lemma SecondTextOrder(s: int, t: int)
    requires 0 <= DateOf(s / 86400).year < 10000 && 0 <= DateOf(t / 86400).year < 10000
    requires s < t
    ensures LexLess(SecondText(s), SecondText(t))
  {
    DaySplit(s, t);
    DayAndClockOrder(s / 86400, s % 86400, t / 86400, t % 86400);
  }

  lemma DaySplit(s: int, t: int)
    requires s < t
    ensures s / 86400 < t / 86400 || (s / 86400 == t / 86400 && s % 86400 < t % 86400)
  {
  }

  lemma DayAndClockOrder(d: int, u: nat, e: int, v: nat)
    requires 0 <= DateOf(d).year < 10000 && 0 <= DateOf(e).year < 10000
    requires u < 86400 && v < 86400
    requires d < e || (d == e && u < v)
    ensures LexLess(DateText(d) + "T" + ClockText(u), DateText(e) + "T" + ClockText(v))
  {
    DateTextWidth(d);
    DateTextWidth(e);
    if d < e {
      DateTextOrder(d, e);
    } else {
      ClockTextOrder(u, v);
      LexCommonPrefix("T", ClockText(u), ClockText(v));
    }
    SecondParts(DateText(d), DateText(e), ClockText(u), ClockText(v));
  }

  lemma SecondParts(a: string, b: string, u: string, v: string)
    requires FieldLess(a, b, "T" + u, "T" + v)
    ensures LexLess(a + "T" + u, b + "T" + v)
  {
    assert a + "T" + u == a + ("T" + u) && b + "T" + v == b + ("T" + v);
    FieldOrder(a, b, "T" + u, "T" + v);
  }

  // ----- order inside one second

  lemma PowNine()
    ensures Pow10(9) == 1_000_000_000
  {
    assert Pow10(3) == 1000;
    assert Pow10(6) == 1000 * Pow10(3);
    assert Pow10(9) == 1000 * Pow10(6);
  }

  /** The text of an earlier fraction sorts first exactly when its digits are not
      where the later fraction starts: the closing 'Z' sorts after every digit and
      after the point. */
  lemma FractionTextOrder(f: nat, g: nat)
    requires f < g < 1_000_000_000
    ensures LexLess(FractionText(f) + "Z", FractionText(g) + "Z") <==> !(FractionDigits(f) <= FractionDigits(g))
    ensures LexLess(FractionText(g) + "Z", FractionText(f) + "Z") <==> FractionDigits(f) <= FractionDigits(g)
  {
    var a, b := Decimal(f, 9), Decimal(g, 9);
    PowNine();
    DecimalOrder(f, g, 9);
    var k := FirstDifference(a, b);
    TrimmedOrder(a, b, k);
  }

  function Pointed(digits: string): string {
    if digits == [] then "" else "." + digits
  }

  lemma TrimmedOrder(a: string, b: string, k: nat)
    requires |a| == |b| && AllDigits(a) && AllDigits(b)
    requires k < |a| && a[..k] == b[..k] && a[k] < b[k]
    ensures
      var x, y := Pointed(TrimZeros(a)) + "Z", Pointed(TrimZeros(b)) + "Z";
      && (LexLess(x, y) <==> !(TrimZeros(a) <= TrimZeros(b)))
      && (LexLess(y, x) <==> TrimZeros(a) <= TrimZeros(b))
  {
    var p, q := TrimZeros(a), TrimZeros(b);
    LexTotal(Pointed(p) + "Z", Pointed(q) + "Z");
    assert IsDigit(a[k]);
    assert b[k] != '0';
    if |p| <= k {
      assert p == a[..k][..|p|] && q[..|p|] == b[..k][..|p|];
      PrefixSortsLast(p, q);
    } else {
      assert p[..k] == a[..k] && q[..k] == b[..k];
      DifferenceDecides(p, q, k);
    }
  }

  lemma DifferenceDecides(p: string, q: string, k: nat)
    requires k < |p| && k < |q| && p[..k] == q[..k] && p[k] < q[k]
    ensures LexLess(Pointed(p) + "Z", Pointed(q) + "Z") && !(p <= q)
  {
    var c := "." + p[..k];
    var u, v := p[k..] + "Z", q[k..] + "Z";
    assert p == p[..k] + p[k..] && q == q[..k] + q[k..];
    assert Pointed(p) + "Z" == c + u && Pointed(q) + "Z" == c + v;
    assert u[0] < v[0];
    LexCommonPrefix(c, u, v);
    assert p[..k + 1] != q[..k + 1] by { assert p[..k + 1][k] != q[..k + 1][k]; }
  }

  lemma PrefixSortsLast(p: string, q: string)
    requires AllDigits(q) && p <= q && p != q
    ensures LexLess(Pointed(q) + "Z", Pointed(p) + "Z")
  {
    if p != [] {
      var r := q[|p|..];
      assert "." + q + "Z" == ("." + p) + (r + "Z");
      LexCommonPrefix("." + p, r + "Z", "Z");
      assert IsDigit(r[0]);
    }
  }

  // ----- order of instants

  lemma TimeValueParts(t: Instant)
    ensures TimeValue(t) == SecondText(SecondOf(t)) + (FractionText(NanosOf(t)) + "Z")
  {
  }

  /** For years 0000-9999 the stored text of an earlier instant sorts first, except
      inside one second, where it does so exactly when its fraction digits are not a
      prefix of the later instant's. */
  lemma TextOrder(a: Instant, b: Instant)
    requires FourDigitYear(a) && FourDigitYear(b) && a < b
    ensures LexLess(TimeValue(a), TimeValue(b)) <==>
            SecondOf(a) != SecondOf(b) || !(FractionDigits(NanosOf(a)) <= FractionDigits(NanosOf(b)))
    ensures LexLess(TimeValue(b), TimeValue(a)) <==>
            SecondOf(a) == SecondOf(b) && FractionDigits(NanosOf(a)) <= FractionDigits(NanosOf(b))
  {
    var s, t := SecondOf(a), SecondOf(b);
    var x, y := FractionText(NanosOf(a)) + "Z", FractionText(NanosOf(b)) + "Z";
    YearHasFourDigits(a);
    YearHasFourDigits(b);
    TimeValueParts(a);
    TimeValueParts(b);
    if s < t {
      SecondTextOrder(s, t);
      SecondTextWidth(s);
      SecondTextWidth(t);
      LexLessPrefix(SecondText(s), SecondText(t), x, y);
      LexTotal(TimeValue(a), TimeValue(b));
    } else {
      FractionTextOrder(NanosOf(a), NanosOf(b));
      LexCommonPrefix(SecondText(s), x, y);
      LexCommonPrefix(SecondText(s), y, x);
    }
  }

  /** Different instants have different texts. */
  lemma TextInjective(a: Instant, b: Instant)
    requires FourDigitYear(a) && FourDigitYear(b) && TimeValue(a) == TimeValue(b)
    ensures a == b
  {
    LexTotal(TimeValue(a), TimeValue(b));
    if a < b {
      TextOrder(a, b);
    } else if b < a {
      TextOrder(b, a);
    }
  }

  /** When the stored test `expiry <= now` holds: always from the next whole second,
      never before the second holding the expiry, and inside that second on the exact
      nanosecond or by the fraction digits alone. */
  lemma DueBySecond(expiry: Instant, now: Instant)
    requires FourDigitYear(expiry) && FourDigitYear(now)
    ensures SecondOf(now) > SecondOf(expiry) ==> LexLe(TimeValue(expiry), TimeValue(now))
    ensures SecondOf(now) < SecondOf(expiry) ==> !LexLe(TimeValue(expiry), TimeValue(now))
    ensures SecondOf(now) == SecondOf(expiry) ==>
      (LexLe(TimeValue(expiry), TimeValue(now)) <==>
        || now == expiry
        || (expiry < now && !(FractionDigits(NanosOf(expiry)) <= FractionDigits(NanosOf(now))))
        || (now < expiry && FractionDigits(NanosOf(now)) <= FractionDigits(NanosOf(expiry))))
  {
    LexTotal(TimeValue(expiry), TimeValue(now));
    if expiry < now {
      TextOrder(expiry, now);
    } else if now < expiry {
      TextOrder(now, expiry);
    }
  }

  /** Inside one second text order is not time order: a whole second sorts after
      every later instant of that second. */
  lemma WholeSecondSortsLast(a: Instant, b: Instant)
    requires FourDigitYear(a) && FourDigitYear(b)
    requires SecondOf(a) == SecondOf(b) && NanosOf(a) == 0 && a < b
    ensures LexLess(TimeValue(b), TimeValue(a))
  {
    TrimZerosOfZero(9);
    TextOrder(a, b);
  }

  lemma {:induction false} TrimZerosOfZero(n: nat)
    ensures TrimZeros(Decimal(0, n)) == ""
  {
    if n > 0 {
      TrimZerosOfZero(n - 1);
      assert Decimal(0, n)[..n - 1] == Decimal(0, n - 1);
    }
  }

  // ----- times for concrete runs

  /** The stored text of second `n` after 2026-01-01T00:00:00Z. */
  function Clock(n: nat): string {
    TimeValue((63934444800 + n) * 1_000_000_000)
  }

  lemma WholeSecond(second: int)
    ensures SecondOf(second * 1_000_000_000) == second
  {
  }

  lemma ClockOrder(m: nat, n: nat)
    requires m <= n < 86400
    ensures LexLe(Clock(m), Clock(n))
  {
    hide TimeValue, LexLe, SecondOf, NanosOf, FractionDigits;
    var a, b := 63934444800 + m, 63934444800 + n;
    WholeSecond(a);
    WholeSecond(b);
    assert m == n ==> a * 1_000_000_000 == b * 1_000_000_000;
    DueBySecond(a * 1_000_000_000, b * 1_000_000_000);
  }
}
