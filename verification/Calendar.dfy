/** The proleptic Gregorian calendar: days since 0000-01-01 and back. */
module Calendar {

  datatype Date = Date(year: int, month: int, day: int)

  predicate Leap(year: int) {
    year % 4 == 0 && (year % 100 != 0 || year % 400 == 0)
  }

  function DaysInMonth(year: int, month: int): (n: int)
    requires 1 <= month <= 12
    ensures 28 <= n <= 31
  {
    if month == 2 then (if Leap(year) then 29 else 28)
    else if month == 4 || month == 6 || month == 9 || month == 11 then 30
    else 31
  }

  predicate ValidDate(date: Date) {
    && 1 <= date.month <= 12
    && 1 <= date.day <= DaysInMonth(date.year, date.month)
  }

  /** Multiples of `period` from 0 up to but not including `year`. */
  function Multiples(year: int, period: int): int
    requires period > 0
  {
    (year + period - 1) / period
  }

  function DaysBeforeYear(year: int): int {
    365 * year + Multiples(year, 4) - Multiples(year, 100) + Multiples(year, 400)
  }

  function DaysBeforeMonth(year: int, month: int): (n: int)
    requires 1 <= month <= 13
  {
    if month == 1 then 0 else DaysBeforeMonth(year, month - 1) + DaysInMonth(year, month - 1)
  }

  /** Days from 0000-01-01 to `date`. */
  function DayNumber(date: Date): int
    requires ValidDate(date)
  {
    DaysBeforeYear(date.year) + DaysBeforeMonth(date.year, date.month) + date.day - 1
  }

  lemma YearLength(year: int)
    ensures DaysBeforeYear(year + 1) == DaysBeforeYear(year) + 365 + (if Leap(year) then 1 else 0)
  {
    MoreMultiples4(year);
    MoreMultiples100(year);
    MoreMultiples400(year);
    hide Multiples;
    CenturiesNest(year);
  }

  lemma CenturiesNest(year: int)
    ensures year % 100 == 0 ==> year % 4 == 0
    ensures year % 400 == 0 ==> year % 100 == 0
  {
  }

  lemma MoreMultiples4(year: int)
    ensures Multiples(year + 1, 4) == Multiples(year, 4) + (if year % 4 == 0 then 1 else 0)
  {
  }

  lemma MoreMultiples100(year: int)
    ensures Multiples(year + 1, 100) == Multiples(year, 100) + (if year % 100 == 0 then 1 else 0)
  {
  }

  lemma MoreMultiples400(year: int)
    ensures Multiples(year + 1, 400) == Multiples(year, 400) + (if year % 400 == 0 then 1 else 0)
  {
  }

  lemma MonthsMakeAYear(year: int)
    ensures DaysBeforeMonth(year, 13) == 365 + (if Leap(year) then 1 else 0)
  {
    var leap := if Leap(year) then 1 else 0;
    assert DaysBeforeMonth(year, 2) == 31;
    assert DaysBeforeMonth(year, 3) == 59 + leap;
    assert DaysBeforeMonth(year, 5) == 120 + leap;
    assert DaysBeforeMonth(year, 7) == 181 + leap;
    assert DaysBeforeMonth(year, 9) == 243 + leap;
    assert DaysBeforeMonth(year, 11) == 304 + leap;
  }

  /** The lengths of the months, and two fixed days: 1970-01-01 and 2000-02-29. */
  lemma MonthLengths(year: int)
    ensures
      && DaysInMonth(year, 1) == DaysInMonth(year, 3) == DaysInMonth(year, 5) == DaysInMonth(year, 7) == 31
      && DaysInMonth(year, 8) == DaysInMonth(year, 10) == DaysInMonth(year, 12) == 31
      && DaysInMonth(year, 4) == DaysInMonth(year, 6) == DaysInMonth(year, 9) == DaysInMonth(year, 11) == 30
      && (DaysInMonth(year, 2) == 29 <==> year % 400 == 0 || (year % 4 == 0 && year % 100 != 0))
      && 28 <= DaysInMonth(year, 2) <= 29
  {
    hide Leap;
    LeapYears(year);
  }

  lemma LeapYears(year: int)
    ensures Leap(year) <==> year % 400 == 0 || (year % 4 == 0 && year % 100 != 0)
  {
    CenturiesNest(year);
  }

  lemma FixedDays()
    ensures DayNumber(Date(1970, 1, 1)) == 719528 && DayNumber(Date(2000, 2, 29)) == 730544
  {
  }

  lemma {:induction false} MonthsGrow(year: int, m: int, n: int)
    requires 1 <= m <= n <= 13
    ensures DaysBeforeMonth(year, m) <= DaysBeforeMonth(year, n)
    ensures m < n ==> DaysBeforeMonth(year, m) + DaysInMonth(year, m) <= DaysBeforeMonth(year, n)
    decreases n - m
  {
    if m < n {
      MonthsGrow(year, m, n - 1);
    }
  }

  lemma {:induction false} YearsGrow(x: int, y: int)
    requires x <= y
    ensures DaysBeforeYear(x) + 365 * (y - x) <= DaysBeforeYear(y)
    decreases y - x
  {
    if x < y {
      YearsGrow(x, y - 1);
      YearLength(y - 1);
    }
  }

  /** A day number lies inside its own year. */
  lemma WithinYear(date: Date)
    requires ValidDate(date)
    ensures DaysBeforeYear(date.year) <= DayNumber(date) < DaysBeforeYear(date.year + 1)
  {
    MonthsGrow(date.year, 1, date.month);
    MonthsGrow(date.year, date.month, 13);
    MonthsMakeAYear(date.year);
    YearLength(date.year);
  }

  predicate Earlier(a: Date, b: Date) {
    || a.year < b.year
    || (a.year == b.year && a.month < b.month)
    || (a.year == b.year && a.month == b.month && a.day < b.day)
  }

  lemma DayNumberOrder(a: Date, b: Date)
    requires ValidDate(a) && ValidDate(b)
    ensures DayNumber(a) < DayNumber(b) <==> Earlier(a, b)
    ensures DayNumber(a) == DayNumber(b) <==> a == b
  {
    if Earlier(a, b) {
      EarlierIsLess(a, b);
    } else if Earlier(b, a) {
      EarlierIsLess(b, a);
    }
  }

  lemma EarlierIsLess(a: Date, b: Date)
    requires ValidDate(a) && ValidDate(b) && Earlier(a, b)
    ensures DayNumber(a) < DayNumber(b)
  {
    if a.year < b.year {
      WithinYear(a);
      WithinYear(b);
      YearsGrow(a.year + 1, b.year);
    } else if a.month < b.month {
      MonthsGrow(a.year, a.month, b.month);
    }
  }

  // ----- day number to date

  function FindYear(n: int, from: int): (year: int)
    requires DaysBeforeYear(from) <= n
    ensures DaysBeforeYear(year) <= n < DaysBeforeYear(year + 1)
    decreases n - DaysBeforeYear(from)
  {
    YearLength(from);
    if n < DaysBeforeYear(from + 1) then from else FindYear(n, from + 1)
  }

  function FindMonth(year: int, rest: int, from: int): (month: int)
    requires 1 <= from <= 12
    requires DaysBeforeMonth(year, from) <= rest < DaysBeforeMonth(year, 13)
    ensures 1 <= month <= 12
    ensures DaysBeforeMonth(year, month) <= rest < DaysBeforeMonth(year, month) + DaysInMonth(year, month)
    decreases 12 - from
  {
    if rest < DaysBeforeMonth(year, from + 1) then from else FindMonth(year, rest, from + 1)
  }

  function YearBefore(n: int): (year: int)
    ensures DaysBeforeYear(year) <= n
  {
    if n >= 0 then n / 366 else n / 365 - 1
  }

  /** The calendar date of a day number. */
  function DateOf(n: int): (date: Date)
    ensures ValidDate(date) && DayNumber(date) == n
  {
    var year := FindYear(n, YearBefore(n));
    var rest := n - DaysBeforeYear(year);
    YearLength(year);
    MonthsMakeAYear(year);
    var month := FindMonth(year, rest, 1);
    Date(year, month, rest - DaysBeforeMonth(year, month) + 1)
  }

  lemma DateOfDayNumber(date: Date)
    requires ValidDate(date)
    ensures DateOf(DayNumber(date)) == date
  {
    DayNumberOrder(DateOf(DayNumber(date)), date);
  }

  lemma YearOfDay(n: int, low: int, high: int)
    requires low <= high
    ensures low <= DateOf(n).year < high <==> DaysBeforeYear(low) <= n < DaysBeforeYear(high)
  {
    var year := DateOf(n).year;
    WithinYear(DateOf(n));
    if year < low {
      YearsGrow(year + 1, low);
    } else {
      YearsGrow(low, year);
    }
    if year >= high {
      YearsGrow(high, year);
    } else {
      YearsGrow(year + 1, high);
    }
  }
}
