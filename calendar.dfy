/** Calendar dates at day granularity, with months numbered 0..11 as the
    browser's Date.getMonth() numbers them. A month is also named by its
    month index `year * 12 + month`, which is how `new Date(y, m - k, 1)`
    behaves when `m - k` underflows into an earlier year. */
module Calendar {

  datatype Date = Date(year: int, month: int, day: int)

  /** The month index of a date: consecutive months have consecutive indices. */
  function MonthIndex(d: Date): int {
    d.year * 12 + d.month
  }

  function YearOfIndex(idx: int): int {
    idx / 12
  }

  function MonthOfIndex(idx: int): (m: int)
    ensures 0 <= m < 12
  {
    idx % 12
  }

  predicate IsLeapYear(y: int) {
    y % 4 == 0 && (y % 100 != 0 || y % 400 == 0)
  }

  /** Number of days in month `m` (0..11) of year `y` in the Gregorian calendar;
      `new Date(y, m + 1, 0).getDate()` in the source. */
  function DaysInMonth(y: int, m: int): (n: int)
    requires 0 <= m < 12
    ensures 28 <= n <= 31
    ensures m == 1 ==> (n == 29 <==> IsLeapYear(y))
  {
    if m == 1 then (if IsLeapYear(y) then 29 else 28)
    else if m == 3 || m == 5 || m == 8 || m == 10 then 30
    else 31
  }

  /** A real calendar day: the only dates a date input field produces. */
  predicate ValidDate(d: Date) {
    0 <= d.month < 12 && 1 <= d.day <= DaysInMonth(d.year, d.month)
  }

  /** `new Date(y, m, 1)` for a month index that may lie outside 0..11. */
  function FirstDayOfMonth(idx: int): (d: Date)
    ensures ValidDate(d) && d.day == 1
    ensures MonthIndex(d) == idx
  {
    Date(YearOfIndex(idx), MonthOfIndex(idx), 1)
  }

  /** `new Date(y, m + 1, 0)`: the last day of the month with index `idx`. */
  function LastDayOfMonth(idx: int): (d: Date)
    ensures ValidDate(d) && d.day == DaysInMonth(d.year, d.month)
    ensures MonthIndex(d) == idx
  {
    var y, m := YearOfIndex(idx), MonthOfIndex(idx);
    Date(y, m, DaysInMonth(y, m))
  }

  /** Chronological order on dates compared at local midnight. */
  predicate DateLe(a: Date, b: Date) {
    a.year < b.year
    || (a.year == b.year && a.month < b.month)
    || (a.year == b.year && a.month == b.month && a.day <= b.day)
  }

  /** For months in 0..11, lexicographic order on (year, month) is the order
      of month indices. */
  lemma MonthIndexOrder(a: Date, b: Date)
    requires 0 <= a.month < 12 && 0 <= b.month < 12
    ensures MonthIndex(a) < MonthIndex(b)
            <==> (a.year < b.year || (a.year == b.year && a.month < b.month))
    ensures MonthIndex(a) == MonthIndex(b) <==> a.year == b.year && a.month == b.month
  {
    if a.year < b.year {
      assert a.year * 12 + 12 <= b.year * 12;
    } else if a.year > b.year {
      assert b.year * 12 + 12 <= a.year * 12;
    }
  }

  /** A real day is on or after the first day of month `idx` exactly when
      its month is `idx` or later. */
  lemma OnOrAfterFirstDay(idx: int, d: Date)
    requires ValidDate(d)
    ensures DateLe(FirstDayOfMonth(idx), d) <==> idx <= MonthIndex(d)
  {
    MonthIndexOrder(FirstDayOfMonth(idx), d);
  }

  /** A real day is on or before the last day of month `idx` exactly when
      its month is `idx` or earlier. */
  lemma OnOrBeforeLastDay(idx: int, d: Date)
    requires ValidDate(d)
    ensures DateLe(d, LastDayOfMonth(idx)) <==> MonthIndex(d) <= idx
  {
    MonthIndexOrder(d, LastDayOfMonth(idx));
  }

  /** The inclusive range from the first to the last day of a month holds
      exactly the real days of that month. */
  lemma WithinMonth(idx: int, d: Date)
    requires ValidDate(d)
    ensures (DateLe(FirstDayOfMonth(idx), d) && DateLe(d, LastDayOfMonth(idx)))
            <==> MonthIndex(d) == idx
  {
    OnOrAfterFirstDay(idx, d);
    OnOrBeforeLastDay(idx, d);
  }
}
