/** parse_cn_date: the twelve relative keywords, resolved against the reference date. */
module Keywords {
  import opened Wrappers
  import opened Calendar
  import opened DateBuilder

  /** The keys of the switch table. */
  const KEYWORDS: set<string> := {
    "今年", "明年", "去年", "前年",
    "本月", "上月", "下月",
    "今天", "明天", "后天", "昨天", "前天"}

  /** What a keyword's lambda returns: a year or month number, or a date. */
  datatype KeywordValue = Number(n: int) | Day(d: Date)

  function YearOf(r: Result<Date>): Result<KeywordValue> {
    match r
    case Ok(d) => Ok(Number(d.year))
    case Err(e) => Err(e)
  }

  function MonthOf(r: Result<Date>): Result<KeywordValue> {
    match r
    case Ok(d) => Ok(Number(d.month))
    case Err(e) => Err(e)
  }

  function DayOf(r: Result<Date>): Result<KeywordValue> {
    match r
    case Ok(d) => Ok(Day(d))
    case Err(e) => Err(e)
  }

  /** The lambda of the switch table for `key`, applied to the reference date n. */
  function Switch(key: string, n: Date): (r: Result<KeywordValue>)
    requires key in KEYWORDS && ValidDate(n)
    ensures r.Ok? && r.value.Day? ==> ValidDate(r.value.d)
    ensures r.Ok? && r.value.Number? && key in {"本月", "上月", "下月"} ==> 1 <= r.value.n <= 12
    ensures r.Err? ==> r.error == OverflowError || r.error == ValueError
  {
    if key == "今年" then Ok(Number(n.year))
    else if key == "明年" then YearOf(AddYears(n, 1))
    else if key == "去年" then YearOf(AddYears(n, -1))
    else if key == "前年" then YearOf(AddYears(n, -2))
    else if key == "本月" then Ok(Number(n.month))
    else if key == "上月" then MonthOf(AddMonths(n, -1))
    else if key == "下月" then MonthOf(AddMonths(n, 1))
    else if key == "今天" then Ok(Day(n))
    else if key == "明天" then DayOf(ShiftDays(n, 1))
    else if key == "后天" then DayOf(ShiftDays(n, 2))
    else if key == "昨天" then DayOf(ShiftDays(n, -1))
    else DayOf(ShiftDays(n, -2))
  }

  predicate EndsWith(s: string, suffix: string) {
    |suffix| <= |s| && s[|s| - |suffix|..] == suffix
  }

  /** parse_cn_date(s): [] for any other text; for a keyword, its value goes
      to build_date as a year (…年) or as a month (…月), or is the one date (…天). */
  function ParseCnDate(s: string, today: Date): (r: Result<seq<Date>>)
    requires ValidDate(today)
    ensures s !in KEYWORDS ==> r == Ok([])
    ensures r.Ok? ==> |r.value| <= 2 && forall i :: 0 <= i < |r.value| ==> ValidDate(r.value[i])
  {
    if s !in KEYWORDS then Ok([])
    else
      match Switch(s, today)
      case Err(e) => Err(e)
      case Ok(Number(v)) =>
        if EndsWith(s, "年") then BuildDate(Some(v), None, None, today)
        else if EndsWith(s, "月") then BuildDate(None, Some(v), None, today)
        else Ok([])
      case Ok(Day(d)) =>
        if EndsWith(s, "天") then Ok([d]) else Ok([])
  }

  // ---------------------------------------------------------------------------

  /** Text that is not one of the twelve keywords resolves to no dates. */
  lemma NotAKeyword(s: string, today: Date)
    requires ValidDate(today) && s !in KEYWORDS
    ensures ParseCnDate(s, today) == Ok([])
  {
  }

  /** The year keywords shift the reference year by 0, +1, -1 and -2 and give
      that whole year; a year outside 1..9999 raises ValueError. */
  lemma YearKeywords(today: Date, key: string, k: int)
    requires ValidDate(today)
    requires (key, k) in {("今年", 0), ("明年", 1), ("去年", -1), ("前年", -2)}
    ensures ParseCnDate(key, today) ==
      if MIN_YEAR <= today.year + k <= MAX_YEAR
      then Ok([Date(today.year + k, 1, 1), Date(today.year + k, 12, 31)])
      else Err(ValueError)
  {
    assert EndsWith(key, "年");
  }

  lemma PreviousMonth(today: Date)
    requires ValidDate(today)
    ensures MonthOf(AddMonths(today, -1)) ==
      if today.year == MIN_YEAR && today.month == 1 then Err(ValueError)
      else Ok(Number(if today.month == 1 then 12 else today.month - 1))
  {
    var total := 12 * today.year + (today.month - 1) - 1;
    if today.month == 1 {
      assert total / 12 == today.year - 1 && total % 12 == 11;
    } else {
      assert total / 12 == today.year && total % 12 == today.month - 2;
    }
  }

  lemma FollowingMonth(today: Date)
    requires ValidDate(today)
    ensures MonthOf(AddMonths(today, 1)) ==
      if today.year == MAX_YEAR && today.month == 12 then Err(ValueError)
      else Ok(Number(if today.month == 12 then 1 else today.month + 1))
  {
    var total := 12 * today.year + (today.month - 1) + 1;
    if today.month == 12 {
      assert total / 12 == today.year + 1 && total % 12 == 0;
    } else {
      assert total / 12 == today.year && total % 12 == today.month;
    }
  }

  /** The month keywords give a whole month of the reference year: the current
      month, the month before (December in January) and the month after
      (January in December); only at the ends of the calendar do they raise ValueError. */
  lemma MonthKeywords(today: Date, key: string, m: int)
    requires ValidDate(today)
    requires key in {"本月", "上月", "下月"}
    requires m == if key == "本月" then today.month
                  else if key == "上月" then (if today.month == 1 then 12 else today.month - 1)
                  else (if today.month == 12 then 1 else today.month + 1)
    ensures ParseCnDate(key, today) ==
      if (key == "上月" && today.year == MIN_YEAR && today.month == 1)
         || (key == "下月" && today.year == MAX_YEAR && today.month == 12)
      then Err(ValueError)
      else Ok([Date(today.year, m, 1), Date(today.year, m, DaysInMonth(today.year, m))])
  {
    assert !EndsWith(key, "年") && EndsWith(key, "月");
    if key == "上月" {
      PreviousMonth(today);
    } else if key == "下月" {
      FollowingMonth(today);
    }
  }

  /** The day keywords give the one date 0, +1, +2, -1 or -2 days from the
      reference date, carrying over months and years; past either end of the
      calendar they raise OverflowError. */
  lemma DayKeywords(today: Date, key: string, k: int)
    requires ValidDate(today)
    requires (key, k) in {("今天", 0), ("明天", 1), ("后天", 2), ("昨天", -1), ("前天", -2)}
    ensures ParseCnDate(key, today).Ok? <==> 1 <= Ordinal(today) + k <= MAX_ORDINAL
    ensures ParseCnDate(key, today).Ok? ==>
      var r := ParseCnDate(key, today).value;
      |r| == 1 && ValidDate(r[0]) && Ordinal(r[0]) == Ordinal(today) + k
    ensures ParseCnDate(key, today).Err? ==> ParseCnDate(key, today).error == OverflowError
  {
    ShiftDaysSpec(today, k);
    DayKeywordResult(today, key, k);
  }

  /** A day keyword's answer is the day shift's date as a one-element list, or its error. */
  lemma DayKeywordResult(today: Date, key: string, k: int)
    requires ValidDate(today)
    requires (key, k) in {("今天", 0), ("明天", 1), ("后天", 2), ("昨天", -1), ("前天", -2)}
    ensures ShiftDays(today, k).Ok? ==> ParseCnDate(key, today) == Ok([ShiftDays(today, k).value])
    ensures ShiftDays(today, k).Err? ==> ParseCnDate(key, today) == Err(ShiftDays(today, k).error)
  {
    assert !EndsWith(key, "年") && !EndsWith(key, "月") && EndsWith(key, "天");
    assert Switch(key, today) == DayOf(ShiftDays(today, k));
  }

  /** With the default reference date 2021-09-01. */
  lemma DefaultReferenceKeywords()
    ensures ParseCnDate("上月", Date(2021, 9, 1)) == Ok([Date(2021, 8, 1), Date(2021, 8, 31)])
    ensures ParseCnDate("昨天", Date(2021, 9, 1)) == Ok([Date(2021, 8, 31)])
    ensures ParseCnDate("前年", Date(2021, 9, 1)) == Ok([Date(2019, 1, 1), Date(2019, 12, 31)])
  {
    MonthKeywords(Date(2021, 9, 1), "上月", 8);
    YearKeywords(Date(2021, 9, 1), "前年", -2);
    assert EndsWith("昨天", "天") && !EndsWith("昨天", "年") && !EndsWith("昨天", "月");
  }
}
