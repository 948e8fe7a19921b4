/** Calendar arithmetic of JavaScript's `Date` object, restricted to the UTC time zone.

    A `Date` value is a calendar day. `month` is 1-based here, whereas `getMonth()`
    is 0-based. `DayNumber` is ECMAScript's `MakeDay`: it gives every (year, month, day)
    triple a day number, even when the month or the day lies outside its usual range.
    The setters of a `Date` object compute `MakeDay` and then turn the number back into a
    calendar day; `Normalize` does that here. */
module Calendar {

  datatype Date = Date(year: int, month: int, day: int)

  predicate IsLeapYear(y: int) {
    y % 4 == 0 && (y % 100 != 0 || y % 400 == 0)
  }

  function DaysInMonth(y: int, m: int): (n: int)
    requires 1 <= m <= 12
    ensures 28 <= n <= 31
  {
    if m == 2 then (if IsLeapYear(y) then 29 else 28)
    else if m == 4 || m == 6 || m == 9 || m == 11 then 30
    else 31
  }

  function DaysInYear(y: int): int {
    if IsLeapYear(y) then 366 else 365
  }

  /** A day that exists in the proleptic Gregorian calendar. */
  predicate ValidDate(d: Date) {
    1 <= d.month <= 12 && 1 <= d.day <= DaysInMonth(d.year, d.month)
  }

  /** Days from 1 January of year `y` to the first day of month `m`; `m == 13` gives the year's length. */
  function DaysBeforeMonth(y: int, m: int): int
    requires 1 <= m <= 13
  {
    if m == 1 then 0 else DaysBeforeMonth(y, m - 1) + DaysInMonth(y, m - 1)
  }

  lemma FullYear(y: int)
    ensures DaysBeforeMonth(y, 13) == DaysInYear(y)
  {
    assert DaysBeforeMonth(y, 2) == 31;
    assert DaysBeforeMonth(y, 3) == 31 + DaysInMonth(y, 2);
    assert DaysBeforeMonth(y, 4) == 62 + DaysInMonth(y, 2);
    assert DaysBeforeMonth(y, 5) == 92 + DaysInMonth(y, 2);
    assert DaysBeforeMonth(y, 6) == 123 + DaysInMonth(y, 2);
    assert DaysBeforeMonth(y, 7) == 153 + DaysInMonth(y, 2);
    assert DaysBeforeMonth(y, 8) == 184 + DaysInMonth(y, 2);
    assert DaysBeforeMonth(y, 9) == 215 + DaysInMonth(y, 2);
    assert DaysBeforeMonth(y, 10) == 245 + DaysInMonth(y, 2);
    assert DaysBeforeMonth(y, 11) == 276 + DaysInMonth(y, 2);
    assert DaysBeforeMonth(y, 12) == 306 + DaysInMonth(y, 2);
  }

  /** Days from 0001-01-01 to 1 January of year `y` (negative before year 1). */
  function DaysBeforeYear(y: int): int {
    var p := y - 1;
    365 * p + p / 4 - p / 100 + p / 400
  }

  /** The year that month index `m` of year `y` falls in, once `m` is brought into 1..12. */
  function CarryYear(y: int, m: int): int {
    y + (m - 1) / 12
  }

  /** Month index `m` brought into 1..12. */
  function CarryMonth(m: int): (r: int)
    ensures 1 <= r <= 12
  {
    (m - 1) % 12 + 1
  }

  /** ECMAScript `MakeDay(y, m, 1)`: the day number of the first day of month `m` of year `y`,
      where a month outside 1..12 moves the year. */
  function MonthStart(y: int, m: int): int {
    DaysBeforeYear(CarryYear(y, m)) + DaysBeforeMonth(CarryYear(y, m), CarryMonth(m))
  }

  /** ECMAScript `MakeDay(year, month, day)`. */
  function DayNumber(d: Date): int {
    MonthStart(d.year, d.month) + d.day - 1
  }

  /** Calendar order, the order in which the `yyyy-mm-dd` strings of a date input compare. */
  predicate NotAfter(a: Date, b: Date) {
    a.year < b.year || (a.year == b.year && (a.month < b.month || (a.month == b.month && a.day <= b.day)))
  }

  /** Counting multiples of 4, 100 and 400 up to `y` gains one exactly when `y` is such a multiple. */
  lemma MultipleCounts(y: int)
    ensures y / 4 - (y - 1) / 4 == (if y % 4 == 0 then 1 else 0)
    ensures y / 100 - (y - 1) / 100 == (if y % 100 == 0 then 1 else 0)
    ensures y / 400 - (y - 1) / 400 == (if y % 400 == 0 then 1 else 0)
  {
  }

  lemma YearLength(y: int)
    ensures DaysBeforeYear(y + 1) == DaysBeforeYear(y) + DaysInYear(y)
  {
    MultipleCounts(y);
  }

  /** Moving to the next month index adds the length of the current month. */
  lemma MonthStep(y: int, m: int)
    ensures MonthStart(y, m + 1) == MonthStart(y, m) + DaysInMonth(CarryYear(y, m), CarryMonth(m))
  {
    var q, r := (m - 1) / 12, (m - 1) % 12;
    assert m - 1 == 12 * q + r;
    if r < 11 {
      assert m == 12 * q + (r + 1);
      assert m / 12 == q && m % 12 == r + 1;
    } else {
      assert m == 12 * (q + 1);
      assert m / 12 == q + 1 && m % 12 == 0;
      YearLength(CarryYear(y, m));
      FullYear(CarryYear(y, m));
    }
  }

  /** Adding `k` years is the same as adding `12 * k` months. */
  lemma YearShift(y: int, k: int, m: int)
    ensures MonthStart(y + k, m) == MonthStart(y, m + 12 * k)
  {
    var q, r := (m - 1) / 12, (m - 1) % 12;
    assert m - 1 == 12 * q + r;
    assert m + 12 * k - 1 == 12 * (q + k) + r;
    assert (m + 12 * k - 1) / 12 == q + k && (m + 12 * k - 1) % 12 == r;
  }

  lemma {:induction false} MonthStartMonotone(y: int, m1: int, m2: int)
    requires m1 <= m2
    ensures MonthStart(y, m1) <= MonthStart(y, m2)
    decreases m2 - m1
  {
    if m1 < m2 {
      MonthStep(y, m1);
      MonthStartMonotone(y, m1 + 1, m2);
    }
  }

  /** Moving the month index forward, by `k1` and then by `k2 >= k1`, never reaches an earlier month start. */
  lemma MonthStartForward(y: int, m: int, k1: nat, k2: nat)
    requires k1 <= k2
    ensures MonthStart(y, m) <= MonthStart(y, m + k1) <= MonthStart(y, m + k2)
  {
    MonthStartMonotone(y, m, m + k1);
    MonthStartMonotone(y, m + k1, m + k2);
  }

  /** A month that comes later in calendar order starts no earlier than the month after. */
  lemma LaterMonthStart(a: Date, b: Date)
    requires 1 <= a.month <= 12 && 1 <= b.month <= 12
    requires a.year < b.year || (a.year == b.year && a.month < b.month)
    ensures MonthStart(a.year, a.month + 1) <= MonthStart(b.year, b.month)
  {
    var k := b.year - a.year;
    var m2 := b.month + 12 * k;
    assert a.month + 1 <= m2;
    YearShift(a.year, k, b.month);
    MonthStartMonotone(a.year, a.month + 1, m2);
  }

  /** A valid date lies before the start of the next month. */
  lemma BeforeNextMonth(a: Date)
    requires ValidDate(a)
    ensures DayNumber(a) < MonthStart(a.year, a.month + 1)
  {
    MonthStep(a.year, a.month);
  }

  /** Among valid dates, a strictly later date in calendar order has a strictly larger day number. */
  lemma DayNumberStrict(a: Date, b: Date)
    requires ValidDate(a) && ValidDate(b) && NotAfter(a, b) && a != b
    ensures DayNumber(a) < DayNumber(b)
  {
    if a.year != b.year || a.month != b.month {
      BeforeNextMonth(a);
      LaterMonthStart(a, b);
    }
  }

  /** Calendar order and day-number order agree on valid dates. */
  lemma OrderByDayNumber(a: Date, b: Date)
    requires ValidDate(a) && ValidDate(b)
    ensures NotAfter(a, b) <==> DayNumber(a) <= DayNumber(b)
  {
    if a != b {
      if NotAfter(a, b) {
        DayNumberStrict(a, b);
      } else {
        DayNumberStrict(b, a);
      }
    }
  }

  /** A valid date is determined by its day number. */
  lemma DayNumberInjective(a: Date, b: Date)
    requires ValidDate(a) && ValidDate(b) && DayNumber(a) == DayNumber(b)
    ensures a == b
  {
    if a != b {
      if NotAfter(a, b) {
        DayNumberStrict(a, b);
      } else {
        DayNumberStrict(b, a);
      }
    }
  }

  /** The calendar day whose day number is `MakeDay(y, m, d)`: the month carries into the year and
      the day carries into the neighbouring months, as the setters of a JavaScript `Date` do. */
  function Normalize(y: int, m: int, d: int): (r: Date)
    ensures ValidDate(r)
    ensures DayNumber(r) == MonthStart(y, m) + d - 1
    decreases if d < 1 then 1 else 0, if d < 1 then -d else d
  {
    if d < 1 then
      MonthStep(y, m - 1);
      Normalize(y, m - 1, d + DaysInMonth(CarryYear(y, m - 1), CarryMonth(m - 1)))
    else if d > DaysInMonth(CarryYear(y, m), CarryMonth(m)) then
      MonthStep(y, m);
      Normalize(y, m + 1, d - DaysInMonth(CarryYear(y, m), CarryMonth(m)))
    else
      Date(CarryYear(y, m), CarryMonth(m), d)
  }

  /** A valid date is already normal. */
  lemma NormalizeValid(d: Date)
    requires ValidDate(d)
    ensures Normalize(d.year, d.month, d.day) == d
  {
    assert CarryYear(d.year, d.month) == d.year && CarryMonth(d.month) == d.month;
  }

  /** `MakeDay` of a date with its month index moved by `months` and its day by `days`. */
  function Advance(d: Date, months: int, days: int): Date {
    Normalize(d.year, d.month + months, d.day + days)
  }

  /** A day that fits the month index is kept as it is. */
  lemma NormalizeInMonth(y: int, m: int, d: int)
    requires 1 <= d <= DaysInMonth(CarryYear(y, m), CarryMonth(m))
    ensures Normalize(y, m, d) == Date(CarryYear(y, m), CarryMonth(m), d)
  {
  }

  /** A day past the end of the month index carries into the next month index. */
  lemma NormalizeCarry(y: int, m: int, d: int)
    requires d > DaysInMonth(CarryYear(y, m), CarryMonth(m))
    ensures Normalize(y, m, d) == Normalize(y, m + 1, d - DaysInMonth(CarryYear(y, m), CarryMonth(m)))
  {
  }

  /** A move lands on a valid date whose day number is the moved month's start plus the moved day. */
  lemma AdvanceDayNumber(d: Date, months: int, days: int)
    ensures ValidDate(Advance(d, months, days))
    ensures DayNumber(Advance(d, months, days)) == MonthStart(d.year, d.month + months) + d.day + days - 1
  {
  }

  /** Two forward moves of a valid date, the second no shorter in months and in days than the
      first, land in order: the date, then the first, then the second. */
  lemma AdvanceWindow(d: Date, k1: nat, j1: nat, k2: nat, j2: nat)
    requires ValidDate(d) && k1 <= k2 && j1 <= j2
    ensures NotAfter(d, Advance(d, k1, j1))
    ensures NotAfter(Advance(d, k1, j1), Advance(d, k2, j2))
  {
    var a, b := Advance(d, k1, j1), Advance(d, k2, j2);
    AdvanceDayNumber(d, k1, j1);
    AdvanceDayNumber(d, k2, j2);
    MonthStartForward(d.year, d.month, k1, k2);
    OrderByDayNumber(d, a);
    OrderByDayNumber(a, b);
  }

  /** `Date.prototype.setFullYear(getFullYear() + n)`: month and day are kept and may overflow. A
      day shift (`setDate(getDate() + n)`) is `Advance(d, 0, n)` and a month shift
      (`setMonth(getMonth() + n)`) is `Advance(d, n, 0)`. */
  function AddYears(d: Date, n: int): Date {
    Normalize(d.year + n, d.month, d.day)
  }

  /** Shifting a valid date by whole days moves its day number by exactly that many days. */
  lemma AddDaysDayNumber(d: Date, n: int)
    requires ValidDate(d)
    ensures DayNumber(Advance(d, 0, n)) == DayNumber(d) + n
  {
  }

  /** `setFullYear(getFullYear() + n)` is `setMonth(getMonth() + 12 * n)`: a year shift is twelve
      month-index steps a year. */
  lemma AddYearsAsMonths(d: Date, n: int)
    ensures AddYears(d, n) == Advance(d, 12 * n, 0)
  {
    var a, b := AddYears(d, n), Advance(d, 12 * n, 0);
    AddYearsDayNumber(d, n);
    DayNumberInjective(a, b);
  }

  /** The day number a year shift reaches is that of the month index moved by twelve a year. */
  lemma AddYearsDayNumber(d: Date, n: int)
    ensures DayNumber(AddYears(d, n)) == MonthStart(d.year, d.month + 12 * n) + d.day - 1
  {
    YearShift(d.year, n, d.month);
  }

  /** `setMonth` carries a day the target month lacks into the next month: 31 August moved six
      months ahead is "31 February" of the next year, which is 3 March, or 2 March in a leap year. */
  lemma MonthOverflowExample(y: int)
    ensures Advance(Date(y, 8, 31), 6, 0) == Date(y + 1, 3, if IsLeapYear(y + 1) then 2 else 3)
  {
    assert CarryYear(y, 14) == y + 1 && CarryMonth(14) == 2;
    assert CarryYear(y, 15) == y + 1 && CarryMonth(15) == 3;
    NormalizeCarry(y, 14, 31);
    NormalizeInMonth(y, 15, if IsLeapYear(y + 1) then 2 else 3);
  }

  /** `setFullYear` carries a leap day to 1 March of the following year. */
  lemma LeapDayExample(y: int)
    requires IsLeapYear(y)
    ensures AddYears(Date(y, 2, 29), 1) == Date(y + 1, 3, 1)
  {
    var z := y + 1;
    assert !IsLeapYear(z);
    assert CarryYear(z, 2) == z && CarryMonth(2) == 2;
    assert CarryYear(z, 3) == z && CarryMonth(3) == 3;
    NormalizeCarry(z, 2, 29);
    NormalizeInMonth(z, 3, 1);
  }

  /** A JavaScript `Date` whose time zone is UTC, reduced to its calendar fields and the hour. */
  class UtcDate {
    var year: int
    var month: int
    var day: int
    var hours: int

    ghost predicate Valid()
      reads this
    {
      ValidDate(Date(year, month, day)) && 0 <= hours < 24
    }

    /** `toISOString().split('T')[0]`: the calendar day, the time of day dropped. */
    function DatePart(): Date
      reads this
    {
      Date(year, month, day)
    }

    /** `new Date('yyyy-mm-dd')`, which is midnight UTC of that day. */
    constructor (d: Date)
      requires ValidDate(d)
      ensures Valid() && DatePart() == d && hours == 0
    {
      year, month, day, hours := d.year, d.month, d.day, 0;
    }

    /** `setDate(date)`: the day of the month becomes `date`, carrying into other months. */
    method SetDate(date: int)
      requires Valid()
      modifies this
      ensures Valid() && hours == old(hours)
      ensures DayNumber(DatePart()) == MonthStart(old(year), old(month)) + date - 1
    {
      var r := Normalize(year, month, date);
      year, month, day := r.year, r.month, r.day;
    }

    /** `setMonth(m)` with a 1-based `m`: the day of the month is kept and may carry over. */
    method SetMonth(m: int)
      requires Valid()
      modifies this
      ensures Valid() && hours == old(hours)
      ensures DayNumber(DatePart()) == MonthStart(old(year), m) + old(day) - 1
    {
      var r := Normalize(year, m, day);
      year, month, day := r.year, r.month, r.day;
    }

    /** `setFullYear(y)`: month and day are kept and may carry over (29 February to 1 March). */
    method SetFullYear(y: int)
      requires Valid()
      modifies this
      ensures Valid() && hours == old(hours)
      ensures DayNumber(DatePart()) == MonthStart(y, old(month)) + old(day) - 1
    {
      var r := Normalize(y, month, day);
      year, month, day := r.year, r.month, r.day;
    }

    /** `setHours(h)`: whole days of `h` carry into the date, the rest is the hour. */
    method SetHours(h: int)
      requires Valid()
      modifies this
      ensures Valid() && hours == h % 24
      ensures DayNumber(DatePart()) == DayNumber(old(DatePart())) + h / 24
    {
      var r := Normalize(year, month, day + h / 24);
      year, month, day, hours := r.year, r.month, r.day, h % 24;
    }
  }
}
