/** Gregorian calendar arithmetic standing in for Python's `date`, `timedelta`,
    `calendar.monthrange` and `dateutil.relativedelta`. */
module Calendar {
  import opened Wrappers

  /** Years a Python `date` can hold (datetime.MINYEAR and datetime.MAXYEAR). */
  const MIN_YEAR := 1
  const MAX_YEAR := 9999

  /** A calendar date as a (year, month, day) triple; the triples satisfying
      `ValidDate` are exactly the Python `date` objects. */
  datatype Date = Date(year: int, month: int, day: int)

  const FIRST_DATE := Date(MIN_YEAR, 1, 1)
  const LAST_DATE := Date(MAX_YEAR, 12, 31)

  /** Ordinal of LAST_DATE (datetime's _MAXORDINAL). */
  const MAX_ORDINAL := 3652059

  /** The Gregorian leap rule of calendar.isleap. */
  predicate IsLeap(y: int) {
    y % 4 == 0 && (y % 100 != 0 || y % 400 == 0)
  }

  function YearLength(y: int): nat {
    if IsLeap(y) then 366 else 365
  }

  /** Length of month `m` of year `y`: the second component of calendar.monthrange(y, m). */
  function DaysInMonth(y: int, m: int): (n: nat)
    requires 1 <= m <= 12
    ensures 28 <= n <= 31
  {
    if m == 2 then (if IsLeap(y) then 29 else 28)
    else if m == 4 || m == 6 || m == 9 || m == 11 then 30
    else 31
  }

  predicate ValidDate(d: Date) {
    MIN_YEAR <= d.year <= MAX_YEAR && 1 <= d.month <= 12 && 1 <= d.day <= DaysInMonth(d.year, d.month)
  }

  /** Strict chronological order of triples: by year, then month, then day. */
  predicate Before(a: Date, b: Date) {
    a.year < b.year || (a.year == b.year && (a.month < b.month || (a.month == b.month && a.day < b.day)))
  }

  /** Days in the months of year `y` that precede month `m`. */
  function DaysBeforeMonth(y: int, m: int): nat
    requires 1 <= m <= 13
    decreases m
  {
    if m == 1 then 0 else DaysBeforeMonth(y, m - 1) + DaysInMonth(y, m - 1)
  }

  /** Days in the years 1 .. y-1, in the closed form CPython's datetime uses. */
  function DaysBeforeYear(y: int): int
  {
    var p := y - 1;
    p * 365 + p / 4 - p / 100 + p / 400
  }

  /** The proleptic Gregorian ordinal of date.toordinal(): 1 for 0001-01-01. */
  function Ordinal(d: Date): (o: int)
    requires ValidDate(d)
  {
    DaysBeforeYear(d.year) + DaysBeforeMonth(d.year, d.month) + d.day
  }

  function Min(a: int, b: int): int {
    if a <= b then a else b
  }

  /** `d + timedelta(days=1)`. */
  function NextDay(d: Date): (r: Result<Date>)
    requires ValidDate(d)
    ensures r.Ok? ==> ValidDate(r.value)
    ensures r.Err? ==> r.error == OverflowError
  {
    if d.day < DaysInMonth(d.year, d.month) then Ok(Date(d.year, d.month, d.day + 1))
    else if d.month < 12 then Ok(Date(d.year, d.month + 1, 1))
    else if d.year < MAX_YEAR then Ok(Date(d.year + 1, 1, 1))
    else Err(OverflowError)
  }

  /** `d - timedelta(days=1)`. */
  function PrevDay(d: Date): (r: Result<Date>)
    requires ValidDate(d)
    ensures r.Ok? ==> ValidDate(r.value)
    ensures r.Err? ==> r.error == OverflowError
  {
    if d.day > 1 then Ok(Date(d.year, d.month, d.day - 1))
    else if d.month > 1 then Ok(Date(d.year, d.month - 1, DaysInMonth(d.year, d.month - 1)))
    else if d.year > MIN_YEAR then Ok(Date(d.year - 1, 12, 31))
    else Err(OverflowError)
  }

  /** `d + relativedelta(days=k)`, taken one day at a time; it fails exactly
      when the target lies outside the years 1..9999 (see ShiftDaysSpec). */
  function ShiftDays(d: Date, k: int): (r: Result<Date>)
    requires ValidDate(d)
    ensures r.Ok? ==> ValidDate(r.value)
    ensures r.Err? ==> r.error == OverflowError
    decreases if k < 0 then -k else k
  {
    if k == 0 then Ok(d)
    else
      var step := if k > 0 then NextDay(d) else PrevDay(d);
      match step
      case Err(e) => Err(e)
      case Ok(next) => ShiftDays(next, if k > 0 then k - 1 else k + 1)
  }

  /** `d + relativedelta(years=k)`: the year moves by k and the day is clipped to
      the length of the month; a year outside 1..9999 raises ValueError. */
  function AddYears(d: Date, k: int): (r: Result<Date>)
    requires ValidDate(d)
    ensures r.Ok? ==> ValidDate(r.value) && r.value.year == d.year + k && r.value.month == d.month
    ensures r.Err? <==> !(MIN_YEAR <= d.year + k <= MAX_YEAR)
  {
    var y := d.year + k;
    if MIN_YEAR <= y <= MAX_YEAR then Ok(Date(y, d.month, Min(d.day, DaysInMonth(y, d.month))))
    else Err(ValueError)
  }

  /** `d + relativedelta(months=k)`: months carry into years, the day is clipped
      to the length of the month, a year outside 1..9999 raises ValueError. */
  function AddMonths(d: Date, k: int): (r: Result<Date>)
    requires ValidDate(d)
    ensures r.Ok? ==> ValidDate(r.value)
    ensures r.Ok? ==> 12 * r.value.year + r.value.month == 12 * d.year + d.month + k
    ensures r.Err? <==> !(MIN_YEAR <= (12 * d.year + d.month - 1 + k) / 12 <= MAX_YEAR)
    ensures r.Err? ==> r.error == ValueError
  {
    var total := 12 * d.year + (d.month - 1) + k;
    var y := total / 12;
    var m := total % 12 + 1;
    if MIN_YEAR <= y <= MAX_YEAR then Ok(Date(y, m, Min(d.day, DaysInMonth(y, m))))
    else Err(ValueError)
  }

  // ---------------------------------------------------------------------------
  // Lemmas: month lengths against year lengths, ordinals against day steps.

  /** The twelve month lengths add up to the length of the year, and February
      is the only month whose length depends on the leap rule. */
  lemma MonthsFillYear(y: int)
    ensures DaysBeforeMonth(y, 13) == YearLength(y)
    ensures DaysInMonth(y, 2) == 29 <==> IsLeap(y)
  {
    assert DaysBeforeMonth(y, 3) == 31 + DaysInMonth(y, 2);
    assert DaysBeforeMonth(y, 7) == 31 + DaysInMonth(y, 2) + 31 + 30 + 31 + 30;
    assert DaysBeforeMonth(y, 10) == DaysBeforeMonth(y, 7) + 31 + 31 + 30;
  }

  /** A later month starts at least a whole month after an earlier one. */
  lemma {:induction false} DaysBeforeMonthGrows(y: int, m1: int, m2: int)
    requires 1 <= m1 < m2 <= 13
    ensures DaysBeforeMonth(y, m1) + DaysInMonth(y, m1) <= DaysBeforeMonth(y, m2)
    decreases m2
  {
    if m2 > m1 + 1 {
      DaysBeforeMonthGrows(y, m1, m2 - 1);
    }
  }

  /** Consecutive years are a year length apart. */
  lemma DaysBeforeYearStep(y: int)
    ensures DaysBeforeYear(y + 1) == DaysBeforeYear(y) + YearLength(y)
  {
    var p := y - 1;
    assert y / 4 == p / 4 + (if y % 4 == 0 then 1 else 0);
    assert y / 100 == p / 100 + (if y % 100 == 0 then 1 else 0);
    assert y / 400 == p / 400 + (if y % 400 == 0 then 1 else 0);
  }

  lemma {:induction false} DaysBeforeYearGrows(y1: int, y2: int)
    requires y1 < y2
    ensures DaysBeforeYear(y1) + YearLength(y1) <= DaysBeforeYear(y2)
    decreases y2 - y1
  {
    DaysBeforeYearStep(y1);
    if y1 + 1 < y2 {
      DaysBeforeYearGrows(y1 + 1, y2);
    }
  }

  /** A date's ordinal lies within the ordinals of its year. */
  lemma OrdinalInYear(d: Date)
    requires ValidDate(d)
    ensures DaysBeforeYear(d.year) < Ordinal(d) <= DaysBeforeYear(d.year) + YearLength(d.year)
  {
    MonthsFillYear(d.year);
    if d.month < 12 {
      DaysBeforeMonthGrows(d.year, d.month, 13);
    }
  }

  /** The ordinal numbers valid dates in chronological order. */
  lemma OrdinalOrder(a: Date, b: Date)
    requires ValidDate(a) && ValidDate(b)
    ensures Before(a, b) <==> Ordinal(a) < Ordinal(b)
    ensures a == b <==> Ordinal(a) == Ordinal(b)
  {
    if Before(a, b) {
      OrdinalBefore(a, b);
    } else if a != b {
      OrdinalBefore(b, a);
    }
  }

  lemma OrdinalBefore(a: Date, b: Date)
    requires ValidDate(a) && ValidDate(b) && Before(a, b)
    ensures Ordinal(a) < Ordinal(b)
  {
    if a.year < b.year {
      OrdinalInYear(a);
      OrdinalInYear(b);
      DaysBeforeYearGrows(a.year, b.year);
    } else if a.month < b.month {
      DaysBeforeMonthGrows(a.year, a.month, b.month);
    }
  }

  /** Every valid date lies between the first and the last date. */
  lemma OrdinalRange(d: Date)
    requires ValidDate(d)
    ensures 1 <= Ordinal(d) <= MAX_ORDINAL
    ensures Ordinal(d) == 1 <==> d == FIRST_DATE
    ensures Ordinal(d) == MAX_ORDINAL <==> d == LAST_DATE
  {
    OrdinalOrder(FIRST_DATE, d);
    OrdinalOrder(d, LAST_DATE);
  }

  /** The next day is the date whose ordinal is one more; only the last date has none. */
  lemma NextDayStep(d: Date)
    requires ValidDate(d)
    ensures NextDay(d).Ok? <==> d != LAST_DATE
    ensures NextDay(d).Ok? ==> Ordinal(NextDay(d).value) == Ordinal(d) + 1
  {
    if d.day == DaysInMonth(d.year, d.month) {
      if d.month < 12 {
        assert DaysBeforeMonth(d.year, d.month + 1) == DaysBeforeMonth(d.year, d.month) + DaysInMonth(d.year, d.month);
      } else if d.year < MAX_YEAR {
        MonthsFillYear(d.year);
        DaysBeforeYearStep(d.year);
      }
    }
  }

  /** The previous day is the date whose ordinal is one less; only the first date has none. */
  lemma PrevDayStep(d: Date)
    requires ValidDate(d)
    ensures PrevDay(d).Ok? <==> d != FIRST_DATE
    ensures PrevDay(d).Ok? ==> Ordinal(PrevDay(d).value) == Ordinal(d) - 1
  {
    if d.day == 1 {
      if d.month > 1 {
        assert DaysBeforeMonth(d.year, d.month) == DaysBeforeMonth(d.year, d.month - 1) + DaysInMonth(d.year, d.month - 1);
      } else if d.year > MIN_YEAR {
        MonthsFillYear(d.year - 1);
        DaysBeforeYearStep(d.year - 1);
        assert DaysBeforeMonth(d.year - 1, 13) == DaysBeforeMonth(d.year - 1, 12) + 31;
      }
    }
  }

  /** Shifting by k days lands on the date whose ordinal is k more, and fails
      exactly when no valid date has that ordinal. */
  lemma ShiftDaysSpec(d: Date, k: int)
    requires ValidDate(d)
    ensures ShiftDays(d, k).Ok? <==> 1 <= Ordinal(d) + k <= MAX_ORDINAL
    ensures ShiftDays(d, k).Ok? ==> Ordinal(ShiftDays(d, k).value) == Ordinal(d) + k
    ensures ShiftDays(d, k).Err? ==> ShiftDays(d, k).error == OverflowError
  {
    OrdinalRange(d);
    if k >= 0 {
      ShiftForward(d, k);
    } else {
      ShiftBackward(d, -k);
    }
  }

  lemma {:induction false} ShiftForward(d: Date, k: int)
    requires ValidDate(d) && k >= 0
    ensures ShiftDays(d, k).Ok? <==> Ordinal(d) + k <= MAX_ORDINAL
    ensures ShiftDays(d, k).Ok? ==> Ordinal(ShiftDays(d, k).value) == Ordinal(d) + k
    decreases k
  {
    OrdinalRange(d);
    if k > 0 {
      NextDayStep(d);
      var step := NextDay(d);
      if step.Ok? {
        ShiftForward(step.value, k - 1);
        assert ShiftDays(d, k) == ShiftDays(step.value, k - 1);
      }
    }
  }

  lemma {:induction false} ShiftBackward(d: Date, k: int)
    requires ValidDate(d) && k >= 0
    ensures ShiftDays(d, -k).Ok? <==> 1 <= Ordinal(d) - k
    ensures ShiftDays(d, -k).Ok? ==> Ordinal(ShiftDays(d, -k).value) == Ordinal(d) - k
    decreases k
  {
    OrdinalRange(d);
    if k > 0 {
      PrevDayStep(d);
      var step := PrevDay(d);
      if step.Ok? {
        ShiftBackward(step.value, k - 1);
        assert ShiftDays(d, -k) == ShiftDays(step.value, -(k - 1));
      }
    }
  }
}
