/** Properties of parse_datetime: keywords win, the grammar path as a direct
    function of the tree's fields, when no date results, and the expressions of
    the demo sentence and of the default reference date. */
module ResolverProperties {
  import opened Wrappers
  import opened Calendar
  import opened Numerals
  import opened NumeralProperties
  import opened Grammar
  import opened Visitor
  import opened DateBuilder
  import opened Keywords
  import opened Resolver

  /** What a present field decodes to, None for an absent one. */
  function Decoded(f: Option<Field>, typ: string, refYear: nat): Option<int> {
    if f.Some? then FieldValue(f.value.digits, typ, refYear) else None
  }

  lemma KeywordValuesNonEmpty(s: string, today: Date)
    requires ValidDate(today) && s in KEYWORDS
    ensures ParseCnDate(s, today).Ok? ==> 1 <= |ParseCnDate(s, today).value| <= 2
  {
    if s == "今年" { YearKeywords(today, s, 0); }
    else if s == "明年" { YearKeywords(today, s, 1); }
    else if s == "去年" { YearKeywords(today, s, -1); }
    else if s == "前年" { YearKeywords(today, s, -2); }
    else if s == "本月" { MonthKeywords(today, s, today.month); }
    else if s == "上月" { MonthKeywords(today, s, if today.month == 1 then 12 else today.month - 1); }
    else if s == "下月" { MonthKeywords(today, s, if today.month == 12 then 1 else today.month + 1); }
    else if s == "今天" { DayKeywords(today, s, 0); }
    else if s == "明天" { DayKeywords(today, s, 1); }
    else if s == "后天" { DayKeywords(today, s, 2); }
    else if s == "昨天" { DayKeywords(today, s, -1); }
    else { DayKeywords(today, s, -2); }
  }

  /** A keyword is resolved by the keyword table alone: neither the fallback
      parser nor the grammar is consulted, and the answer has one or two dates. */
  lemma KeywordsWin(text: string, today: Date, fallback: Option<Date>, tree: Option<DateTree>)
    requires ValidDate(today) && text in KEYWORDS
    ensures ParseCnDate(text, today).Err? ==> Resolve(text, today, fallback, tree) == Err(ParseCnDate(text, today).error)
    ensures ParseCnDate(text, today).Ok? ==>
      && Resolve(text, today, fallback, tree) == Ok(Some(ParseCnDate(text, today).value))
      && 1 <= |ParseCnDate(text, today).value| <= 2
  {
    KeywordValuesNonEmpty(text, today);
  }

  /** The grammar path is build_date applied to the decoded fields of the tree,
      where a missing year (when a month or day is present) is the reference
      year and a missing month (when a day is present) the reference month.
      Holds for four-digit reference years. */
  lemma GrammarDatesFields(t: DateTree, today: Date)
    requires ValidDate(today) && 1000 <= today.year
    ensures GrammarDates(t, today) == BuildDate(
      if t.years.Some? then Decoded(t.years, "year", today.year)
      else if t.months.Some? || t.days.Some? then Some(today.year) else None,
      if t.months.Some? then Decoded(t.months, "month", today.year)
      else if t.days.Some? then Some(today.month) else None,
      Decoded(t.days, "day", today.year),
      today)
  {
    var c := Collected(t, today);
    var params := DecodedParams(c, today.year);
    CollectedFields(t, today);
    var y := if t.years.Some? then Decoded(t.years, "year", today.year)
             else if t.months.Some? || t.days.Some? then Some(today.year) else None;
    var m := if t.months.Some? then Decoded(t.months, "month", today.year)
             else if t.days.Some? then Some(today.month) else None;
    var d := Decoded(t.days, "day", today.year);
    assert Param(params, "year") == y by {
      ParamDecoded(c, today.year, "year");
      if t.years.None? && (t.months.Some? || t.days.Some?) {
        BackfilledYear(today.year, today.year);
      }
    }
    assert Param(params, "month") == m by {
      ParamDecoded(c, today.year, "month");
      if t.months.None? && t.days.Some? {
        PaddedMonthRoundTrip(today.month);
      }
    }
    assert Param(params, "day") == d by {
      ParamDecoded(c, today.year, "day");
    }
  }

  /** A decoded parameter is the field's value, and absent when the field is absent or does not decode. */
  lemma ParamDecoded(c: map<string, string>, refYear: nat, key: string)
    ensures Param(DecodedParams(c, refYear), key) == (if key in c then FieldValue(c[key], key, refYear) else None)
  {
  }

  /** On the grammar path the answer is None exactly when no field of the tree
      decodes and none is back-filled: a tree without a year has no month or
      day, and a tree without a month has no day. (A month that fails to decode
      still brings in the reference year, and that year is then the answer.) */
  lemma NoDateFound(text: string, today: Date, t: DateTree)
    requires ValidDate(today) && text !in KEYWORDS
    ensures Resolve(text, today, None, Some(t)) == Ok(None) <==>
      && Decoded(t.years, "year", today.year).None?
      && Decoded(t.months, "month", today.year).None?
      && Decoded(t.days, "day", today.year).None?
      && (t.years.None? ==> t.months.None? && t.days.None?)
      && (t.months.None? ==> t.days.None?)
  {
  }

  /** On the grammar path a result has one date when a day decodes and two otherwise. */
  lemma GrammarResultShape(text: string, today: Date, t: DateTree)
    requires ValidDate(today) && text !in KEYWORDS
    requires Resolve(text, today, None, Some(t)).Ok? && Resolve(text, today, None, Some(t)).value.Some?
    ensures var dates := Resolve(text, today, None, Some(t)).value.value;
      && (|dates| == 1 <==> Decoded(t.days, "day", today.year).Some?)
      && (|dates| == 1 || |dates| == 2)
  {
    var params := DecodedParams(Collected(t, today), today.year);
    CollectedFields(t, today);
    BuildDateShape(Param(params, "year"), Param(params, "month"), Param(params, "day"), today);
  }

  /** A month field that does not decode, with no day, leaves the back-filled
      reference year as the only field: the answer is the whole reference year. */
  lemma UndecodableMonth(today: Date, digits: string, mark: string)
    requires ValidDate(today) && 1000 <= today.year
    requires ComponentValue(digits).None?
    ensures GrammarDates(DateTree(None, Some(Field(digits, mark)), None, false), today)
            == Ok([Date(today.year, 1, 1), Date(today.year, 12, 31)])
  {
    GrammarDatesFields(DateTree(None, Some(Field(digits, mark)), None, false), today);
  }

  /** A day whose month does not decode leaves build_date without a month: TypeError,
      whether the year was written or filled in from the reference date. */
  lemma UndecodableMonthWithDay(today: Date, y: Option<Field>, m: Field, d: Field, s: bool)
    requires ValidDate(today)
    requires ComponentValue(m.digits).None? && ComponentValue(d.digits).Some?
    ensures GrammarDates(DateTree(y, Some(m), Some(d), s), today) == Err(TypeError)
  {
    CollectedFields(DateTree(y, Some(m), Some(d), s), today);
  }

  /** A day whose written year does not decode leaves build_date without a year: TypeError. */
  lemma UndecodableYearWithDay(today: Date, y: Field, m: Option<Field>, d: Field, s: bool)
    requires ValidDate(today)
    requires DecodeYear(y.digits, today.year).None? && ComponentValue(d.digits).Some?
    ensures GrammarDates(DateTree(Some(y), m, Some(d), s), today) == Err(TypeError)
  {
    CollectedFields(DateTree(Some(y), m, Some(d), s), today);
  }

  /** Text outside the keyword table, rejected by the fallback parser, takes the grammar path. */
  lemma GrammarPath(text: string, today: Date, t: DateTree, dates: seq<Date>)
    requires ValidDate(today) && text !in KEYWORDS
    requires GrammarDates(t, today) == Ok(dates) && |dates| > 0
    ensures Resolve(text, today, None, Some(t)) == Ok(Some(dates))
  {
  }

  /** Every keyword is two characters long, so longer text never takes the keyword path. */
  lemma KeywordsAreTwoCharacters(text: string)
    requires |text| != 2
    ensures text !in KEYWORDS
  {
  }

  lemma DemoFieldValues(y: string, m: string, d: string)
    requires y == "二零一七" && m == "七" && d == "二十三"
    ensures FieldValue(y, "year", 2021) == Some(2017)
    ensures FieldValue(m, "month", 2021) == Some(7)
    ensures FieldValue(d, "day", 2021) == Some(23)
  {
    assert FieldValue(y, "year", 2021) == Some(2017) by {
      ChineseYearTable();
    }
    assert FieldValue(m, "month", 2021) == Some(7) by {
      StandardForms(7, 1);
      assert [CnNumeral(7)] == m;
    }
    assert FieldValue(d, "day", 2021) == Some(23) by {
      StandardForms(2, 3);
      assert [CnNumeral(2), '十', CnNumeral(3)] == d;
    }
  }

  /** A tree whose three fields decode to a valid date resolves to that single date. */
  lemma FullDate(t: DateTree, today: Date, y: int, m: int, d: int)
    requires ValidDate(today)
    requires t.years.Some? && t.months.Some?
    requires Decoded(t.years, "year", today.year) == Some(y)
    requires Decoded(t.months, "month", today.year) == Some(m)
    requires Decoded(t.days, "day", today.year) == Some(d)
    ensures GrammarDates(t, today) == if ValidDate(Date(y, m, d)) then Ok([Date(y, m, d)]) else Err(ValueError)
  {
    CollectedFields(t, today);
  }

  lemma DemoGrammarDates(t: DateTree, today: Date, y: string, m: string, d: string)
    requires y == "二零一七" && m == "七" && d == "二十三"
    requires today == DEFAULT_TODAY
    requires t == DateTree(Some(Field(y, "年")), Some(Field(m, "月")), Some(Field(d, "日")), true)
    ensures GrammarDates(t, today) == Ok([Date(2017, 7, 23)])
  {
    DemoFieldValues(y, m, d);
    assert Decoded(t.years, "year", today.year) == Some(2017);
    assert Decoded(t.months, "month", today.year) == Some(7);
    assert Decoded(t.days, "day", today.year) == Some(23);
    FullDate(t, today, 2017, 7, 23);
    assert ValidDate(Date(2017, 7, 23));
  }

  /** The demo sentence's expression resolves to the single date 2017-07-23. */
  lemma DemoSentence(text: string, t: DateTree)
    requires text == "二零一七年七月二十三日当天"
    requires t == DateTree(Some(Field("二零一七", "年")), Some(Field("七", "月")), Some(Field("二十三", "日")), true)
    ensures Derives(text, t)
    ensures Resolve(text, DEFAULT_TODAY, None, Some(t)) == Ok(Some([Date(2017, 7, 23)]))
  {
    DemoDerivation();
    DemoGrammarDates(t, DEFAULT_TODAY, "二零一七", "七", "二十三");
    KeywordsAreTwoCharacters(text);
    GrammarPath(text, DEFAULT_TODAY, t, [Date(2017, 7, 23)]);
  }

  /** A day alone takes the reference year and month: 11日当天 is 2021-09-11. */
  lemma DayAlone(text: string, t: DateTree, today: Date, digits: string)
    requires text == "11日当天" && digits == "11"
    requires t == DateTree(None, None, Some(Field(digits, "日")), true)
    requires today == DEFAULT_TODAY
    ensures Derives(text, t)
    ensures Resolve(text, today, None, Some(t)) == Ok(Some([Date(2021, 9, 11)]))
  {
    assert Derives(text, t) by {
      assert ValidDays(t.days.value);
      YieldDerives(t);
      assert Yield(t) == text;
    }
    GrammarDatesFields(t, today);
    assert DecimalValue(digits) == 11 by {
      var one := digits[..1];
      assert one == "1" && one[..0] == "";
      assert DecimalValue(one) == 1;
      assert DecimalValue(digits) == 10 * DecimalValue(one) + DigitOf(digits[1]);
    }
    assert Decoded(t.days, "day", today.year) == Some(11);
    assert ValidDate(Date(2021, 9, 11));
    KeywordsAreTwoCharacters(text);
    GrammarPath(text, today, t, [Date(2021, 9, 11)]);
  }

  /** A year alone is January 1 to December 31 of that year: 2017年. */
  lemma YearAlone(text: string, t: DateTree, today: Date, digits: string)
    requires text == "2017年" && digits == "2017"
    requires t == DateTree(Some(Field(digits, "年")), None, None, false)
    requires today == DEFAULT_TODAY
    ensures Derives(text, t)
    ensures Resolve(text, today, None, Some(t)) == Ok(Some([Date(2017, 1, 1), Date(2017, 12, 31)]))
  {
    assert Derives(text, t) by {
      assert ValidYears(t.years.value);
      YieldDerives(t);
      assert Yield(t) == text;
    }
    GrammarDatesFields(t, today);
    ArabicYearTable();
    assert Decoded(t.years, "year", today.year) == Some(2017);
    KeywordsAreTwoCharacters(text);
    GrammarPath(text, today, t, [Date(2017, 1, 1), Date(2017, 12, 31)]);
  }
}
