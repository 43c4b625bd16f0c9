/** build_date: the dates a partial (year, month, day) stands for, the most
    specific field winning. */
module DateBuilder {
  import opened Wrappers
  import opened Calendar

  /** The first and the last day of month m of year y; an invalid month or
      year raises ValueError, as calendar.monthrange and date() do. */
  function MonthRange(y: int, m: int): (r: Result<seq<Date>>)
    ensures r.Ok? <==> MIN_YEAR <= y <= MAX_YEAR && 1 <= m <= 12
    ensures r.Err? ==> r.error == ValueError
    ensures r.Ok? ==> |r.value| == 2 && ValidDate(r.value[0]) && ValidDate(r.value[1])
                      && r.value[0].year == r.value[1].year == y && r.value[0].month == r.value[1].month == m
  {
    if MIN_YEAR <= y <= MAX_YEAR && 1 <= m <= 12 then Ok([Date(y, m, 1), Date(y, m, DaysInMonth(y, m))])
    else Err(ValueError)
  }

  /** January 1 and December 31 of year y. */
  function YearRange(y: int): (r: Result<seq<Date>>)
    ensures r.Ok? <==> MIN_YEAR <= y <= MAX_YEAR
    ensures r.Err? ==> r.error == ValueError
    ensures r.Ok? ==> |r.value| == 2 && ValidDate(r.value[0]) && ValidDate(r.value[1])
                      && r.value[0].year == r.value[1].year == y
  {
    if MIN_YEAR <= y <= MAX_YEAR then Ok([Date(y, 1, 1), Date(y, 12, 31)]) else Err(ValueError)
  }

  /** build_date(year, month, day) with `today` as the reference date:
      a day gives that single date (today.replace with a None year or month
      raises TypeError), else a month gives the month in the given or the
      reference year, else a year gives the year, else nothing. */
  function BuildDate(year: Option<int>, month: Option<int>, day: Option<int>, today: Date): (r: Result<seq<Date>>)
    ensures r.Ok? ==> |r.value| <= 2 && forall i :: 0 <= i < |r.value| ==> ValidDate(r.value[i])
    ensures r.Err? ==> r.error == TypeError || r.error == ValueError
  {
    if day.Some? then
      if year.None? || month.None? then Err(TypeError)
      else
        var d := Date(year.value, month.value, day.value);
        if ValidDate(d) then Ok([d]) else Err(ValueError)
    else if month.Some? then
      MonthRange(if year.Some? then year.value else today.year, month.value)
    else if year.Some? then
      YearRange(year.value)
    else
      Ok([])
  }

  // ---------------------------------------------------------------------------

  /** The shape of the result: no dates without a field, one date for a day,
      two for a month or a year; every date returned is a valid date. The error
      cases are a day without a year or a month, and an out-of-range component. */
  lemma BuildDateShape(year: Option<int>, month: Option<int>, day: Option<int>, today: Date)
    ensures var r := BuildDate(year, month, day, today);
      && (r == Err(TypeError) <==> day.Some? && (year.None? || month.None?))
      && (r.Ok? && |r.value| == 0 <==> year.None? && month.None? && day.None?)
      && (r.Ok? && |r.value| == 1 <==> day.Some? && year.Some? && month.Some?
                                       && ValidDate(Date(year.value, month.value, day.value)))
      && (r.Ok? ==> |r.value| <= 2 && forall i :: 0 <= i < |r.value| ==> ValidDate(r.value[i]))
      && (r.Ok? && |r.value| == 2 ==> day.None? && (month.Some? || year.Some?))
  {
  }

  /** A month result is the closed range of the whole month: both ends in the
      month, the last day its calendar length, and the valid dates between the
      ends exactly the dates of that month. */
  lemma MonthRangeExact(y: int, m: int)
    requires MonthRange(y, m).Ok?
    ensures var r := MonthRange(y, m).value;
      && |r| == 2 && ValidDate(r[0]) && ValidDate(r[1])
      && r[0].day == 1 && r[1].day == DaysInMonth(y, m)
      && Ordinal(r[1]) - Ordinal(r[0]) + 1 == DaysInMonth(y, m)
      && !Before(r[1], r[0])
      && forall d :: ValidDate(d) ==> (d.year == y && d.month == m <==> !Before(d, r[0]) && !Before(r[1], d))
  {
  }

  /** A year result is January 1 to December 31: as many days apart as the year
      is long, and the valid dates between the ends are exactly the dates of that year. */
  lemma YearRangeExact(y: int)
    requires YearRange(y).Ok?
    ensures var r := YearRange(y).value;
      && |r| == 2 && ValidDate(r[0]) && ValidDate(r[1])
      && Ordinal(r[1]) - Ordinal(r[0]) + 1 == YearLength(y)
      && forall d :: ValidDate(d) ==> (d.year == y <==> !Before(d, r[0]) && !Before(r[1], d))
  {
    MonthsFillYear(y);
    assert DaysBeforeMonth(y, 13) == DaysBeforeMonth(y, 12) + 31;
  }

  /** February's range ends on the 29th exactly in leap years. */
  lemma FebruaryRange(y: int)
    requires MIN_YEAR <= y <= MAX_YEAR
    ensures MonthRange(y, 2) == Ok([Date(y, 2, 1), Date(y, 2, if IsLeap(y) then 29 else 28)])
  {
  }
}
