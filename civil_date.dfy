/** Abstract civil (Gregorian) dates, standing in for the zero-padded
    "YYYY-MM-DD" strings and JavaScript `Date` objects of the application.
    Month arithmetic follows JavaScript's `setMonth`/`setFullYear`: a day
    that does not exist in the target month rolls over into the next one. */
module CivilDate {

  predicate IsLeapYear(y: int) {
    y % 4 == 0 && (y % 100 != 0 || y % 400 == 0)
  }

  function DaysInMonth(y: int, m: int): (n: int)
    requires 1 <= m <= 12
    ensures 28 <= n <= 31
    ensures m == 2 ==> (n == 29 <==> IsLeapYear(y))
  {
    if m == 2 then (if IsLeapYear(y) then 29 else 28)
    else if m == 4 || m == 6 || m == 9 || m == 11 then 30
    else 31
  }

  datatype YMD = YMD(year: int, month: int, day: int)

  predicate ValidYMD(d: YMD) {
    1 <= d.month <= 12 && 1 <= d.day <= DaysInMonth(d.year, d.month)
  }

  /** A calendar day; "YYYY-MM-DD" in the source. */
  type Date = d: YMD | ValidYMD(d) witness YMD(2000, 1, 1)

  /** A calendar month; "YYYY-MM" in the source (what `getMonthKey` returns). */
  datatype YM = YM(year: int, month: int)
  type MonthKey = k: YM | 1 <= k.month <= 12 witness YM(2000, 1)

  // ---------------------------------------------------------------------
  // Day numbers: a linear count of days, used to state what date arithmetic means.

  function DaysInYear(y: int): int {
    if IsLeapYear(y) then 366 else 365
  }

  function DaysBeforeYear(y: int): int {
    365 * (y - 1) + (y - 1) / 4 - (y - 1) / 100 + (y - 1) / 400
  }

  /** Days in the months of year `y` before month `m`; `m == 13` gives the whole year. */
  function DaysBeforeMonth(y: int, m: int): int
    requires 1 <= m <= 13
  {
    var table := [0, 0, 31, 59, 90, 120, 151, 181, 212, 243, 273, 304, 334, 365];
    table[m] + (if IsLeapYear(y) && m > 2 then 1 else 0)
  }

  lemma DaysBeforeMonthStep(y: int, m: int)
    requires 1 <= m <= 12
    ensures DaysBeforeMonth(y, m + 1) == DaysBeforeMonth(y, m) + DaysInMonth(y, m)
  {
  }

  /** Days since a fixed origin; 0001-01-01 (a Monday) is day 1. */
  function DayNumber(d: Date): int {
    DaysBeforeYear(d.year) + DaysBeforeMonth(d.year, d.month) + d.day
  }

  /** Day of the week as JavaScript's `getDay` numbers it: 0 is Sunday. */
  function Weekday(d: Date): (w: int)
    ensures 0 <= w < 7
  {
    DayNumber(d) % 7
  }

  /** Going from y - 1 to y, the quotient by d grows by one exactly when d divides y. */
  lemma DivStep(y: int, d: int)
    requires d == 4 || d == 100 || d == 400
    ensures y / d - (y - 1) / d == (if y % d == 0 then 1 else 0)
  {
    if d == 4 {
      assert y / 4 - (y - 1) / 4 == (if y % 4 == 0 then 1 else 0);
    } else if d == 100 {
      assert y / 100 - (y - 1) / 100 == (if y % 100 == 0 then 1 else 0);
    } else {
      assert y / 400 - (y - 1) / 400 == (if y % 400 == 0 then 1 else 0);
    }
  }

  lemma HundredIsLeapCandidate(y: int)
    requires y % 100 == 0
    ensures y % 4 == 0
  {
    var k := y / 100;
    assert y == 4 * (25 * k);
  }

  lemma FourHundredIsCentury(y: int)
    requires y % 400 == 0
    ensures y % 100 == 0
  {
    var k := y / 400;
    assert y == 100 * (4 * k);
  }

  /** The leap-year rule as a count of divisors: +1 for 4, -1 for 100, +1 for 400. */
  lemma LeapCount(y: int)
    ensures (if y % 4 == 0 then 1 else 0) - (if y % 100 == 0 then 1 else 0) + (if y % 400 == 0 then 1 else 0)
      == DaysInYear(y) - 365
  {
    if y % 400 == 0 {
      FourHundredIsCentury(y);
      HundredIsLeapCandidate(y);
    } else if y % 100 == 0 {
      HundredIsLeapCandidate(y);
    }
  }

  lemma DaysBeforeYearStep(y: int)
    ensures DaysBeforeYear(y + 1) == DaysBeforeYear(y) + DaysInYear(y)
  {
    DivStep(y, 4);
    DivStep(y, 100);
    DivStep(y, 400);
    LeapCount(y);
  }

  lemma DaysBeforeMonthWholeYear(y: int)
    ensures DaysBeforeMonth(y, 13) == DaysInYear(y)
  {
  }

  // ---------------------------------------------------------------------
  // Ordering; for valid dates it is the order of the "YYYY-MM-DD" strings.

  predicate OnOrBefore(a: Date, b: Date) {
    a.year < b.year
    || (a.year == b.year && a.month < b.month)
    || (a.year == b.year && a.month == b.month && a.day <= b.day)
  }

  predicate Before(a: Date, b: Date) {
    OnOrBefore(a, b) && a != b
  }

  lemma DaysBeforeMonthMonotone(y: int, m1: int, m2: int)
    requires 1 <= m1 < m2 <= 13
    ensures DaysBeforeMonth(y, m2) >= DaysBeforeMonth(y, m1) + DaysInMonth(y, m1)
  {
  }

  lemma DaysBeforeYearMonotone(y1: int, y2: int)
    requires y1 < y2
    ensures DaysBeforeYear(y2) >= DaysBeforeYear(y1) + DaysInYear(y1)
    decreases y2 - y1
  {
    DaysBeforeYearStep(y1);
    if y1 + 1 < y2 {
      DaysBeforeYearMonotone(y1 + 1, y2);
    }
  }

  /** The day number is an order isomorphism: comparing dates is comparing day numbers. */
  lemma {:induction false} DayNumberOrder(a: Date, b: Date)
    ensures OnOrBefore(a, b) <==> DayNumber(a) <= DayNumber(b)
    ensures a == b <==> DayNumber(a) == DayNumber(b)
  {
    if a.year < b.year {
      DaysBeforeYearMonotone(a.year, b.year);
      DaysBeforeMonthMonotone(a.year, a.month, 13);
      DaysBeforeMonthWholeYear(a.year);
    } else if b.year < a.year {
      DaysBeforeYearMonotone(b.year, a.year);
      DaysBeforeMonthMonotone(b.year, b.month, 13);
      DaysBeforeMonthWholeYear(b.year);
    } else if a.month < b.month {
      DaysBeforeMonthMonotone(a.year, a.month, b.month);
    } else if b.month < a.month {
      DaysBeforeMonthMonotone(a.year, b.month, a.month);
    }
  }

  // ---------------------------------------------------------------------
  // Day arithmetic (`setDate(getDate() + n)`).

  function NextDay(d: Date): (r: Date)
  {
    if d.day < DaysInMonth(d.year, d.month) then YMD(d.year, d.month, d.day + 1)
    else if d.month < 12 then YMD(d.year, d.month + 1, 1)
    else YMD(d.year + 1, 1, 1)
  }

  lemma NextDayNumber(d: Date)
    ensures DayNumber(NextDay(d)) == DayNumber(d) + 1
  {
    if d.day == DaysInMonth(d.year, d.month) && d.month == 12 {
      DaysBeforeYearStep(d.year);
      DaysBeforeMonthWholeYear(d.year);
    }
  }

  /** The date `n` days after `d`. */
  function AddDays(d: Date, n: nat): Date
    decreases n
  {
    if n == 0 then d else AddDays(NextDay(d), n - 1)
  }

  /** Adding `n` days moves the day number by exactly `n`. */
  lemma {:induction false} AddDaysNumber(d: Date, n: nat)
    ensures DayNumber(AddDays(d, n)) == DayNumber(d) + n
    decreases n
  {
    if n > 0 {
      NextDayNumber(d);
      AddDaysNumber(NextDay(d), n - 1);
    }
  }

  lemma AddDaysLater(d: Date, n: nat)
    requires n > 0
    ensures Before(d, AddDays(d, n))
  {
    AddDaysNumber(d, n);
    DayNumberOrder(d, AddDays(d, n));
  }

  // ---------------------------------------------------------------------
  // Months.

  lemma ModSevenStep(n: int)
    ensures (n + 1) % 7 == (n % 7 + 1) % 7
  {
    var q, w := n / 7, n % 7;
    assert n == 7 * q + w;
    if w < 6 {
      assert n + 1 == 7 * q + (w + 1);
    } else {
      assert n + 1 == 7 * (q + 1) + 0;
    }
  }

  /** Weekdays run in a cycle of seven from day to day. */
  lemma WeekdayCycle(d: Date)
    ensures Weekday(NextDay(d)) == (Weekday(d) + 1) % 7
  {
    NextDayNumber(d);
    ModSevenStep(DayNumber(d));
  }

  /** The count follows JavaScript's numbering: 1970-01-01 was a Thursday
      (4) and 2024-01-01 a Monday (1). */
  lemma WeekdayAnchors()
    ensures Weekday(YMD(1970, 1, 1)) == 4 && Weekday(YMD(2024, 1, 1)) == 1
  {
    assert DayNumber(YMD(1970, 1, 1)) == 719163;
    assert DayNumber(YMD(2024, 1, 1)) == 738886;
  }

  function MonthIndex(k: MonthKey): int {
    k.year * 12 + (k.month - 1)
  }

  function MonthFromIndex(i: int): (k: MonthKey)
    ensures MonthIndex(k) == i
  {
    YM(i / 12, i % 12 + 1)
  }

  lemma MonthIndexInjective(a: MonthKey, b: MonthKey)
    ensures MonthIndex(a) == MonthIndex(b) <==> a == b
  {
  }

  /** `date.substring(0, 7)`, and the key that `date.startsWith(key)` tests against. */
  function MonthOf(d: Date): MonthKey {
    YM(d.year, d.month)
  }

  function FirstOfMonth(k: MonthKey): Date {
    YMD(k.year, k.month, 1)
  }

  /** JavaScript's normalisation of (year, month, day) where the day may run past the end of the month. */
  function Normalize(k: MonthKey, day: int): Date
    requires 1 <= day
  {
    var dim := DaysInMonth(k.year, k.month);
    if day <= dim then YMD(k.year, k.month, day)
    else AddDays(YMD(k.year, k.month, dim), day - dim)
  }

  /** `d.setMonth(d.getMonth() + n)`: the day of the month is kept and overflows into the following month. */
  function AddMonthsJs(d: Date, n: int): Date {
    Normalize(MonthFromIndex(MonthIndex(MonthOf(d)) + n), d.day)
  }

  /** `d.setFullYear(d.getFullYear() + n)`: 29 February becomes 1 March outside leap years. */
  function AddYearsJs(d: Date, n: int): Date {
    Normalize(YM(d.year + n, d.month), d.day)
  }

  /** Normalisation lands either on the requested day of the requested month, or,
      when that day does not exist, the overflow days into the following month. */
  lemma NormalizeShape(k: MonthKey, day: int)
    requires 1 <= day <= 31
    ensures day <= DaysInMonth(k.year, k.month) ==> Normalize(k, day) == YMD(k.year, k.month, day)
    ensures day > DaysInMonth(k.year, k.month) ==>
      var next := MonthFromIndex(MonthIndex(k) + 1);
      Normalize(k, day) == YMD(next.year, next.month, day - DaysInMonth(k.year, k.month))
  {
    var dim := DaysInMonth(k.year, k.month);
    if day > dim {
      var last: Date := YMD(k.year, k.month, dim);
      var next := MonthFromIndex(MonthIndex(k) + 1);
      var first: Date := YMD(next.year, next.month, 1);
      assert NextDay(last) == first;
      var extra := day - dim;
      assert AddDays(last, extra) == AddDays(first, extra - 1);
      if extra > 1 {
        assert AddDays(first, 1) == YMD(next.year, next.month, 2);
        if extra > 2 {
          assert AddDays(first, 2) == YMD(next.year, next.month, 3);
        }
      }
    }
  }

  /** Normalisation never moves a date backwards past the requested day of the month. */
  lemma NormalizeNotEarlier(k: MonthKey, day: int)
    requires 1 <= day <= 31
    ensures DayNumber(FirstOfMonth(k)) + day - 1 == DayNumber(Normalize(k, day))
  {
    var dim := DaysInMonth(k.year, k.month);
    if day > dim {
      var last: Date := YMD(k.year, k.month, dim);
      AddDaysNumber(last, day - dim);
    }
  }

  /** Month indices order months as (year, month) pairs. */
  lemma MonthIndexOrder(k: MonthKey, t: MonthKey)
    requires MonthIndex(k) < MonthIndex(t)
    ensures k.year < t.year || (k.year == t.year && k.month < t.month)
  {
  }

  /** A later month starts at least a whole month after an earlier one. */
  lemma FirstOfMonthLater(k: MonthKey, t: MonthKey)
    requires k.year < t.year || (k.year == t.year && k.month < t.month)
    ensures DayNumber(FirstOfMonth(t)) >= DayNumber(FirstOfMonth(k)) + DaysInMonth(k.year, k.month)
  {
    if t.year == k.year {
      DaysBeforeMonthMonotone(k.year, k.month, t.month);
    } else {
      DaysBeforeYearMonotone(k.year, t.year);
      DaysBeforeMonthMonotone(k.year, k.month, 13);
      DaysBeforeMonthWholeYear(k.year);
    }
  }

  /** The requested day of a later month, normalised, comes after the same day of an earlier month. */
  lemma NormalizeInLaterMonth(d: Date, t: MonthKey)
    requires MonthIndex(MonthOf(d)) < MonthIndex(t)
    ensures DayNumber(d) < DayNumber(Normalize(t, d.day))
  {
    var k := MonthOf(d);
    MonthIndexOrder(k, t);
    FirstOfMonthLater(k, t);
    NormalizeNotEarlier(t, d.day);
    NormalizeNotEarlier(k, d.day);
    assert Normalize(k, d.day) == d;
  }

  /** Adding a positive number of months gives a later date. */
  lemma AddMonthsJsLater(d: Date, n: int)
    requires n > 0
    ensures Before(d, AddMonthsJs(d, n))
  {
    var t := MonthFromIndex(MonthIndex(MonthOf(d)) + n);
    NormalizeInLaterMonth(d, t);
    DayNumberOrder(d, AddMonthsJs(d, n));
  }

  lemma AddYearsJsLater(d: Date, n: int)
    requires n > 0
    ensures Before(d, AddYearsJs(d, n))
  {
    var t: MonthKey := YM(d.year + n, d.month);
    assert MonthIndex(MonthOf(d)) < MonthIndex(t);
    NormalizeInLaterMonth(d, t);
    DayNumberOrder(d, AddYearsJs(d, n));
  }
}
