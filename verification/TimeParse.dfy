/** Reading a stored time back (`parseTime`): RFC 3339 text with an optional fraction and
    a zone, or the zone-less "date time" text MySQL produces. */
module TimeParse {
  import opened Wrappers
  import opened Text
  import opened Calendar
  import opened TimeText

  /** "YYYY-MM-DD" to a day number. */
  function ParseDate(s: string): Option<int>
    requires |s| == 10
  {
    if s[4] == '-' && s[7] == '-' then DateOfFields(s[..4], s[5..7], s[8..]) else None
  }

  function DateOfFields(y: string, m: string, d: string): Option<int> {
    if AllDigits(y) && AllDigits(m) && AllDigits(d) then
      var date := Date(Number(y), Number(m), Number(d));
      if ValidDate(date) then Some(DayNumber(date)) else None
    else None
  }

  /** "hh:mm:ss" to a second of the day. */
  function ParseClock(s: string): Option<nat>
    requires |s| == 8
  {
    if s[2] == ':' && s[5] == ':' then ClockOfFields(s[..2], s[3..5], s[6..]) else None
  }

  function ClockOfFields(h: string, m: string, s: string): Option<nat> {
    if AllDigits(h) && AllDigits(m) && AllDigits(s) && Number(h) < 24 && Number(m) < 60 && Number(s) < 60 then
      Some(Number(h) * 3600 + Number(m) * 60 + Number(s))
    else None
  }

  /** Nanoseconds of a non-empty digit string; digits after the ninth are dropped. */
  function NanosOfDigits(digits: string): (n: nat)
    requires AllDigits(digits)
    ensures n < 1_000_000_000
  {
    var kept := if |digits| <= 9 then digits else digits[..9];
    NumberBound(kept);
    PowNine();
    ScaledBound(kept);
    Number(kept) * Pow10(9 - |kept|)
  }

  lemma {:induction false} PowSplit(m: nat, n: nat)
    ensures Pow10(m) * Pow10(n) == Pow10(m + n)
  {
    if m != 0 {
      PowSplit(m - 1, n);
      assert Pow10(m) * Pow10(n) == 10 * (Pow10(m - 1) * Pow10(n));
    }
  }

  lemma ScaledBound(kept: string)
    requires AllDigits(kept) && |kept| <= 9
    ensures Number(kept) * Pow10(9 - |kept|) < Pow10(9)
  {
    NumberBound(kept);
    PowSplit(|kept|, 9 - |kept|);
    StrictScale(Number(kept), Pow10(|kept|), Pow10(9 - |kept|));
  }

  lemma StrictScale(a: nat, b: nat, c: nat)
    requires a < b && c >= 1
    ensures a * c < b * c
  {
  }

  /** An optional fraction at the start of `s`: its nanoseconds and what follows it. */
  function ParseFraction(s: string): (nat, string) {
    if |s| >= 2 && s[0] == '.' && IsDigit(s[1]) then
      var n := DigitRun(s[1..]);
      (NanosOfDigits(s[1..][..n]), s[1..][n..])
    else (0, s)
  }

  /** "Z" or a signed "hh:mm", up to 24 hours and 60 minutes as the general parser allows:
      seconds to subtract. */
  function ParseZone(s: string): Option<int> {
    if s == "Z" then Some(0)
    else if |s| == 6 && (s[0] == '+' || s[0] == '-') && AllDigits(s[1..3]) && s[3] == ':' && AllDigits(s[4..]) then
      var hour, minute := Number(s[1..3]), Number(s[4..]);
      if hour <= 24 && minute <= 60 then
        var offset := (hour * 60 + minute) * 60;
        Some(if s[0] == '-' then -offset else offset)
      else None
    else None
  }

  /** The first nineteen characters, up to the whole second. */
  function ParseSecond(s: string, separator: char): Option<int>
    requires |s| >= 19
  {
    if s[10] == separator then SecondOfFields(ParseDate(s[..10]), ParseClock(s[11..19])) else None
  }

  function SecondOfFields(day: Option<int>, clock: Option<nat>): Option<int> {
    if day.Some? && clock.Some? then Some(day.value * 86400 + clock.value) else None
  }

  /** The layout RFC3339Nano. */
  function ParseRFC3339(s: string): Option<Instant> {
    if |s| < 19 then None
    else
      var second := ParseSecond(s, 'T');
      var (nanos, rest) := ParseFraction(s[19..]);
      var zone := ParseZone(rest);
      if second.Some? && zone.Some? then Some((second.value - zone.value) * 1_000_000_000 + nanos) else None
  }

  /** The layouts "2006-01-02 15:04:05.999999" and "2006-01-02 15:04:05". */
  function ParseSpaced(s: string): Option<Instant> {
    if |s| < 19 then None
    else
      var second := ParseSecond(s, ' ');
      var (nanos, rest) := ParseFraction(s[19..]);
      if second.Some? && rest == "" then Some(second.value * 1_000_000_000 + nanos) else None
  }

  function ParseTime(s: string): Option<Instant> {
    var t := ParseRFC3339(s);
    if t.Some? then t else ParseSpaced(s)
  }

  // ----- round trip

  lemma TwoDigits(n: nat)
    requires n < 100
    ensures Number(Decimal(n, 2)) == n
  {
    assert Pow10(2) == 100;
    NumberOfDecimal(n, 2);
  }

  lemma ParseDateOfStrings(y: string, m: string, d: string)
    requires |y| == 4 && |m| == |d| == 2
    ensures ParseDate(y + "-" + m + "-" + d) == DateOfFields(y, m, d)
  {
    hide DateOfFields;
    var s := y + "-" + m + "-" + d;
    assert s[..4] == y && s[5..7] == m && s[8..] == d;
  }

  lemma FieldsOfDate(date: Date)
    requires ValidDate(date) && 0 <= date.year < 10000
    ensures DateOfFields(Decimal(date.year, 4), Decimal(date.month, 2), Decimal(date.day, 2)) == Some(DayNumber(date))
  {
    hide DayNumber;
    assert Pow10(2) == 100 && Pow10(4) == 100 * Pow10(2);
    NumberOfDecimal(date.year, 4);
    TwoDigits(date.month);
    TwoDigits(date.day);
  }

  lemma ParseDateOfText(day: int)
    requires 0 <= DateOf(day).year < 10000
    ensures ParseDate(DateText(day)) == Some(day)
  {
    hide ParseDate, DateOfFields, DateOf;
    var date := DateOf(day);
    FieldsOfDate(date);
    ParseDateOfStrings(Decimal(date.year, 4), Decimal(date.month, 2), Decimal(date.day, 2));
  }

  lemma ClockSum(second: nat)
    requires second < 86400
    ensures second / 60 / 60 < 24 && second / 60 % 60 < 60 && second % 60 < 60
    ensures second / 60 / 60 * 3600 + second / 60 % 60 * 60 + second % 60 == second
  {
  }

  lemma ParseClockOfParts(h: string, m: string, s: string)
    requires |h| == |m| == |s| == 2
    ensures ParseClock(h + ":" + m + ":" + s) == ClockOfFields(h, m, s)
  {
    var t := h + ":" + m + ":" + s;
    assert t[..2] == h && t[3..5] == m && t[6..] == s;
  }

  lemma FieldsOfClock(hour: nat, minute: nat, second: nat)
    requires hour < 24 && minute < 60 && second < 60
    ensures ClockOfFields(Decimal(hour, 2), Decimal(minute, 2), Decimal(second, 2))
            == Some(hour * 3600 + minute * 60 + second)
  {
    TwoDigits(hour);
    TwoDigits(minute);
    TwoDigits(second);
  }

  lemma ParseClockOfText(second: nat)
    requires second < 86400
    ensures ParseClock(ClockText(second)) == Some(second)
  {
    hide ParseClock, ClockOfFields;
    ClockSum(second);
    FieldsOfClock(second / 60 / 60, second / 60 % 60, second % 60);
    ParseClockOfParts(Decimal(second / 60 / 60, 2), Decimal(second / 60 % 60, 2), Decimal(second % 60, 2));
  }

  lemma NanosOfTrimmed(nanos: nat)
    requires nanos < 1_000_000_000
    ensures FractionDigits(nanos) == "" ==> nanos == 0
    ensures NanosOfDigits(FractionDigits(nanos)) == nanos
  {
    PowNine();
    NumberOfDecimal(nanos, 9);
    TrimZerosNumber(Decimal(nanos, 9));
    assert Number("") == 0;
  }

  /** A fraction ends where its digits do. */
  lemma ParsePointed(digits: string, rest: string)
    requires AllDigits(digits) && (rest == "" || (!IsDigit(rest[0]) && rest[0] != '.'))
    ensures ParseFraction(Pointed(digits) + rest) == (if digits == "" then (0, rest) else (NanosOfDigits(digits), rest))
  {
    hide NanosOfDigits;
    if digits == "" {
      assert Pointed(digits) + rest == rest;
    } else {
      var s := "." + digits + rest;
      assert s[1..] == digits + rest && s[1] == digits[0];
      DigitRunStops(digits, rest);
      assert (digits + rest)[..|digits|] == digits && (digits + rest)[|digits|..] == rest;
    }
  }

  lemma ParseFractionOfText(nanos: nat, rest: string)
    requires nanos < 1_000_000_000 && (rest == "" || (!IsDigit(rest[0]) && rest[0] != '.'))
    ensures ParseFraction(FractionText(nanos) + rest) == (nanos, rest)
  {
    hide NanosOfDigits, FractionDigits, ParseFraction, Pointed;
    NanosOfTrimmed(nanos);
    ParsePointed(FractionDigits(nanos), rest);
  }

  lemma ParseSecondOfStrings(date: string, separator: char, clock: string, rest: string)
    requires |date| == 10 && |clock| == 8
    ensures
      var s := date + [separator] + clock + rest;
      |s| >= 19 && s[19..] == rest && ParseSecond(s, separator) == SecondOfFields(ParseDate(date), ParseClock(clock))
  {
    hide ParseDate, ParseClock;
    var s := date + [separator] + clock + rest;
    assert s[..10] == date && s[11..19] == clock;
  }

  lemma ParseSecondOfParts(day: int, clock: nat, rest: string)
    requires 0 <= DateOf(day).year < 10000 && clock < 86400
    ensures
      var s := DateText(day) + "T" + ClockText(clock) + rest;
      |s| >= 19 && s[19..] == rest && ParseSecond(s, 'T') == Some(day * 86400 + clock)
  {
    hide DateText, ClockText, ParseDate, ParseClock, ParseSecond;
    DateTextWidth(day);
    ParseDateOfText(day);
    ParseClockOfText(clock);
    ParseSecondOfStrings(DateText(day), 'T', ClockText(clock), rest);
    assert ['T'] == "T";
  }

  lemma DayRecomposes(second: int)
    ensures second / 86400 * 86400 + second % 86400 == second
  {
  }

  lemma ParseSecondOfText(second: int, rest: string)
    requires 0 <= DateOf(second / 86400).year < 10000
    ensures
      var s := SecondText(second) + rest;
      |s| >= 19 && s[19..] == rest && ParseSecond(s, 'T') == Some(second)
  {
    hide DateText, ClockText, ParseSecond;
    DayRecomposes(second);
    ParseSecondOfParts(second / 86400, second % 86400, rest);
  }

  /** Only four digits followed by a hyphen are read as a year. */
  lemma YearMustBeFourDigits(s: string)
    requires |s| >= 5 && (!IsDigit(s[0]) || IsDigit(s[4]))
    ensures ParseTime(s) == None
  {
    if |s| >= 19 {
      var date := s[..10];
      assert date[..4][0] == s[0] && date[4] == s[4];
      assert ParseDate(date) == None;
    }
  }

  lemma {:induction false} LongText(n: nat, width: nat)
    requires n >= Pow10(width)
    ensures |DecimalText(n)| > width
    decreases width
  {
    if width > 0 {
      LongText(n / 10, width - 1);
    }
  }

  lemma LongYearText(year: int)
    requires year < 0 || year >= 10000
    ensures |YearText(year)| >= 5 && (!IsDigit(YearText(year)[0]) || IsDigit(YearText(year)[4]))
  {
    assert Pow10(2) == 100 && Pow10(4) == 100 * Pow10(2);
    if year >= 10000 {
      LongText(year, 4);
    } else if -year >= 10000 {
      LongText(-year, 4);
    }
  }

  lemma YearComesFirst(t: Instant)
    ensures YearText(DateOf(SecondOf(t) / 86400).year) <= TimeValue(t)
  {
  }

  lemma ParseParts(s: string, second: int, nanos: nat)
    requires |s| >= 19 && ParseSecond(s, 'T') == Some(second) && ParseFraction(s[19..]) == (nanos, "Z")
    ensures ParseRFC3339(s) == Some(second * 1_000_000_000 + nanos)
  {
  }

  lemma InstantRecomposes(t: Instant)
    ensures SecondOf(t) * 1_000_000_000 + NanosOf(t) == t
  {
  }

  lemma ParseFourDigitYear(t: Instant)
    requires FourDigitYear(t)
    ensures ParseRFC3339(TimeValue(t)) == Some(t)
  {
    hide SecondText, FractionText, ParseSecond, ParseFraction, ParseRFC3339;
    YearHasFourDigits(t);
    TimeValueParts(t);
    ParseSecondOfText(SecondOf(t), FractionText(NanosOf(t)) + "Z");
    ParseFractionOfText(NanosOf(t), "Z");
    ParseParts(TimeValue(t), SecondOf(t), NanosOf(t));
    InstantRecomposes(t);
  }

  /** `parseTime` undoes `timeValue` to the nanosecond, exactly for the instants whose
      UTC year has four digits. */
  lemma ParseUndoesTimeValue(t: Instant)
    ensures ParseTime(TimeValue(t)) == (if FourDigitYear(t) then Some(t) else None)
    ensures ParseRFC3339(TimeValue(t)) == (if FourDigitYear(t) then Some(t) else None)
  {
    hide TimeValue, ParseRFC3339, ParseSpaced;
    if FourDigitYear(t) {
      ParseFourDigitYear(t);
    } else {
      YearHasFourDigits(t);
      LongYearText(DateOf(SecondOf(t) / 86400).year);
      YearComesFirst(t);
      YearMustBeFourDigits(TimeValue(t));
    }
  }

  // ----- the other spellings that are read

  function ZoneText(sign: char, hour: nat, minute: nat): string {
    [sign] + Decimal(hour, 2) + ":" + Decimal(minute, 2)
  }

  function Offset(sign: char, hour: nat, minute: nat): int {
    if sign == '+' then hour * 3600 + minute * 60 else 0 - hour * 3600 - minute * 60
  }

  lemma ZoneOfText(sign: char, hour: nat, minute: nat)
    requires (sign == '+' || sign == '-') && hour < 100 && minute < 100
    ensures ParseZone(ZoneText(sign, hour, minute)) ==
      if hour > 24 || minute > 60 then None
      else Some(Offset(sign, hour, minute))
  {
    hide Decimal;
    TwoDigits(hour);
    TwoDigits(minute);
    var s := ZoneText(sign, hour, minute);
    assert s[1..3] == Decimal(hour, 2) && s[4..] == Decimal(minute, 2);
  }

  /** A local time with its distance from UTC names the instant that distance earlier or later. */
  lemma ZonedTimeIsRead(t: Instant, sign: char, hour: nat, minute: nat)
    requires FourDigitYear(t) && (sign == '+' || sign == '-') && hour <= 24 && minute <= 60
    ensures
      ParseTime(SecondText(SecondOf(t)) + FractionText(NanosOf(t)) + ZoneText(sign, hour, minute))
      == Some(if sign == '+' then t - (hour * 3600 + minute * 60) * 1_000_000_000
              else t + (hour * 3600 + minute * 60) * 1_000_000_000)
  {
    hide SecondText, FractionText, ParseZone, ZoneText, ParseSpaced, ParseRFC3339, FourDigitYear, DateOf, SecondOf, NanosOf;
    ZoneFirst(sign, hour, minute);
    ZoneOfText(sign, hour, minute);
    ZonedAt(t, ZoneText(sign, hour, minute), Offset(sign, hour, minute));
  }

  lemma ZonedAt(t: Instant, zone: string, offset: int)
    requires FourDigitYear(t)
    requires zone != "" && !IsDigit(zone[0]) && zone[0] != '.' && ParseZone(zone) == Some(offset)
    ensures ParseRFC3339(SecondText(SecondOf(t)) + FractionText(NanosOf(t)) + zone) == Some(t - offset * 1_000_000_000)
  {
    hide SecondText, FractionText, ParseZone, ParseRFC3339, FourDigitYear, DateOf, SecondOf, NanosOf;
    YearHasFourDigits(t);
    ZonedParts(SecondOf(t), NanosOf(t), zone, offset);
    InstantRecomposes(t);
  }

  lemma ZonedParts(second: int, nanos: nat, zone: string, offset: int)
    requires 0 <= DateOf(second / 86400).year < 10000 && nanos < 1_000_000_000
    requires zone != "" && !IsDigit(zone[0]) && zone[0] != '.' && ParseZone(zone) == Some(offset)
    ensures ParseRFC3339(SecondText(second) + FractionText(nanos) + zone) == Some((second - offset) * 1_000_000_000 + nanos)
  {
    hide SecondText, FractionText, ParseSecond, ParseFraction, ParseZone, ParseRFC3339, DateOf;
    ParseSecondOfText(second, FractionText(nanos) + zone);
    ParseFractionOfText(nanos, zone);
    var s := SecondText(second) + FractionText(nanos) + zone;
    assert s == SecondText(second) + (FractionText(nanos) + zone);
    ParseZonedParts(s, second, nanos, zone, offset);
  }

  lemma ParseZonedParts(s: string, second: int, nanos: nat, zone: string, offset: int)
    requires |s| >= 19 && ParseSecond(s, 'T') == Some(second) && ParseFraction(s[19..]) == (nanos, zone)
    requires ParseZone(zone) == Some(offset)
    ensures ParseRFC3339(s) == Some((second - offset) * 1_000_000_000 + nanos)
  {
    hide ParseSecond, ParseFraction, ParseZone;
  }

  lemma ZoneFirst(sign: char, hour: nat, minute: nat)
    ensures ZoneText(sign, hour, minute) != "" && ZoneText(sign, hour, minute)[0] == sign
  {
  }

  /** The zone-less text MySQL gives back names the UTC instant. */
  lemma SpacedTimeIsRead(t: Instant)
    requires FourDigitYear(t)
    ensures
      ParseTime(DateText(SecondOf(t) / 86400) + " " + ClockText(SecondOf(t) % 86400) + FractionText(NanosOf(t))) == Some(t)
  {
    hide DateText, ClockText, FractionText, ParseRFC3339, ParseSpaced, FourDigitYear, DateOf, SecondOf, NanosOf;
    YearHasFourDigits(t);
    DayRecomposes(SecondOf(t));
    SpacedParts(SecondOf(t) / 86400, SecondOf(t) % 86400, NanosOf(t));
    InstantRecomposes(t);
  }

  lemma SpacedParts(day: int, clock: nat, nanos: nat)
    requires 0 <= DateOf(day).year < 10000 && clock < 86400 && nanos < 1_000_000_000
    ensures
      var s := DateText(day) + " " + ClockText(clock) + FractionText(nanos);
      ParseRFC3339(s) == None && ParseSpaced(s) == Some((day * 86400 + clock) * 1_000_000_000 + nanos)
  {
    hide DateText, ClockText, FractionText, ParseSecond, ParseDate, ParseClock, ParseFraction, ParseRFC3339, DateOf;
    DateTextWidth(day);
    ParseDateOfText(day);
    ParseClockOfText(clock);
    ParseSecondOfStrings(DateText(day), ' ', ClockText(clock), FractionText(nanos));
    ParseFractionOfText(nanos, "");
    assert FractionText(nanos) + "" == FractionText(nanos) && [' '] == " ";
    SpaceIsNotT(DateText(day), ClockText(clock), FractionText(nanos));
  }

  lemma SpaceIsNotT(date: string, clock: string, rest: string)
    requires |date| == 10 && |clock| == 8
    ensures ParseRFC3339(date + " " + clock + rest) == None
  {
    hide ParseDate, ParseClock, ParseFraction, ParseZone;
    var s := date + " " + clock + rest;
    assert s[10] == ' ';
  }
}
