# Chinese date-expression resolver

A Dafny model of the resolver in `examples/PythonExamples/nlp_date_spot.py`. The resolver takes a date expression written in Chinese or Arabic numerals, such as 二零一七年七月二十三日当天, 7月, 2017-7-23 or a relative keyword such as 上月. It returns the dates the expression stands for:

- one date for a day;
- the first and the last day of a month;
- 1 January and 31 December of a year;
- nothing when no field is found.

The model covers these pieces of the source:

- **Span fold** (`Spans`). The loop of `process_input` builds the date text from the entities a tagger found. It takes the first entity's word and appends every later word that is 当天. The method `CollectDateText` is proved against the function `DateText`. `SameDayRunIsRepeat` shows that the appended part is one 当天 per 当天 entity.
- **Calendar** (`Calendar`). The model has its own Gregorian arithmetic in place of `date`, `timedelta`, `relativedelta` and `calendar.monthrange`:
  - the leap rule and month lengths;
  - `toordinal`, in CPython's closed form;
  - day steps, which are proved to move the ordinal by exactly one and to fail only at the ends of the calendar;
  - year and month offsets, with the day clipped to the month.
- **Numeral decoding** (`Numerals`, `NumeralProperties`). This is `date_str_to_digit`, in two paths:
  - The year path turns Chinese numerals into a digit string, one character at a time (十 becomes "10"; other characters are dropped). It then applies the century rule: four characters are the year itself, and anything else is added to the reference century.
  - The month/day path is the right-to-left accumulator loop, written as a method (`DecodeComponent`). It is proved equal to a fold function (`ScanFrom`).
  - The lemmas prove the standard spellings (a, 十, 十b, a十, a十b), the decoding of every number 1..99, and the numeral cases of the project's test table. They also prove the decoder's quirks, which are kept as written: 零 is 1, 一二 is 3, and "13" is 13.
- **Grammar** (`Grammar`). Lark's date grammar is a relation `Derives(text, tree)` over a parse-tree datatype with optional years, months and days nodes and an optional 当天.
  - The DIGIT class includes the double quote, because the grammar's character class does.
  - Spaces are ignored, except inside the single token 当天.
  - A text may have several trees ("07-11" has two). Which one Lark picks, and whether it rejects the text, is therefore an input of the resolver, constrained by `ParserAnswer`.
- **Visitor** (`Visitor`). `DateTreeVisitor` is a class whose `dateDict` map field is updated by its `Years`, `Months` and `Days` methods. Each method is specified by a function of the old dictionary. `CollectedFields` states what the dictionary holds after a visit:
  - a month implies a year, and a day implies a year and a month;
  - a missing year is back-filled as `str(year)` and a missing month as the zero-padded month;
  - a field already present is never overwritten.
- **Range building** (`DateBuilder`). `build_date` is a case split in which the most specific field wins. Its lemmas prove:
  - the shape of the result, and its error cases;
  - that a month range and a year range are the closed interval of exactly the dates of that month or year.
- **Relative keywords** (`Keywords`). `parse_cn_date` handles the twelve keywords. The lemmas state each keyword's result as a function of the reference date, including the ends of the calendar.
- **Orchestration** (`Resolver`, `ResolverProperties`). `ParseDatetime` is the method body of `parse_datetime`:
  1. the keyword table;
  2. the fallback parser;
  3. the grammar path: visit, the loop that decodes the fields (`DecodeParams`), and `build_date`.

  It is proved equal to the function `Resolve`. The lemmas prove:
  - that keywords win;
  - the grammar path as a direct function of the tree's decoded fields;
  - exactly when the answer is None;
  - the demo sentence's expression, with the parse tree written out, resolves to 2017-07-23.

Python exceptions are results: `Err(ValueError)`, `Err(TypeError)`, `Err(OverflowError)`, and `Err(UnexpectedInput)` for a text the grammar rejects. The reference date `now()` is a parameter; `Resolver.DEFAULT_TODAY` is its value, 2021-09-01.

Where the expectations in `examples/PythonExamples/tests/test_date_parser.py` (half-open ranges, "2017年" ending on 2018-01-01, two dates for a single day) differ from the code, the model follows the code:

- A month or a year is returned as the closed range [first day, last day], not as a half-open interval.
- A single day is returned as a one-element list.
- 上月 in January and 下月 in December give December and January of the reference year, because only `.month` of the shifted date is kept.
- "2017年" gives 2017-01-01 and 2017-12-31.
- A day whose month field fails to decode raises TypeError in `date.replace`: the visitor only back-fills a month that is absent, not one that does not decode. The model keeps this path; see `ResolverProperties.UndecodableMonthWithDay`.

## Model

| member | source | states |
|---|---|---|
| Calendar.NextDay | examples/PythonExamples/nlp_date_spot.py:111 | `d + 1 day` is a valid date or OverflowError |
| Calendar.PrevDay | examples/PythonExamples/nlp_date_spot.py:113 | `d - 1 day` is a valid date or OverflowError |
| Calendar.ShiftDays | examples/PythonExamples/nlp_date_spot.py:111-114 | a day offset returns a valid date when it succeeds, and fails only with OverflowError |
| Calendar.AddYears | examples/PythonExamples/nlp_date_spot.py:104-106 | a year offset fails exactly when the year leaves 1..9999, and otherwise keeps the month and moves the year by k |
| Calendar.AddMonths | examples/PythonExamples/nlp_date_spot.py:108-109 | a month offset moves `12*year + month` by exactly k and returns a valid date; it fails, with ValueError, exactly when the target year leaves 1..9999 |
| Calendar.DaysInMonth | examples/PythonExamples/nlp_date_spot.py:135-138 | the last day that `calendar.monthrange` reports is between 28 and 31 |
| Calendar.MonthsFillYear | examples/PythonExamples/nlp_date_spot.py:135-141 | the twelve month lengths add up to the year length, and February has 29 days exactly in leap years |
| Calendar.DaysBeforeMonthGrows | examples/PythonExamples/nlp_date_spot.py:135-139 | a later month starts at least a whole month after an earlier one |
| Calendar.DaysBeforeYearStep | examples/PythonExamples/nlp_date_spot.py:111-114 | consecutive years' ordinals are one year length apart |
| Calendar.DaysBeforeYearGrows | examples/PythonExamples/nlp_date_spot.py:111-114 | an earlier year ends before a later year starts |
| Calendar.OrdinalInYear | examples/PythonExamples/nlp_date_spot.py:111-114 | a date's ordinal lies within its year's ordinals |
| Calendar.OrdinalOrder | examples/PythonExamples/nlp_date_spot.py:111-114 | the ordinal is strictly monotone in chronological order and injective (both directions) |
| Calendar.OrdinalBefore | examples/PythonExamples/nlp_date_spot.py:111-114 | an earlier date has a smaller ordinal |
| Calendar.OrdinalRange | examples/PythonExamples/nlp_date_spot.py:111-114 | every ordinal `Calendar.Ordinal` (`date.toordinal`) gives is in 1..3652059, with 1 only for 0001-01-01 and the maximum only for 9999-12-31 |
| Calendar.NextDayStep | examples/PythonExamples/nlp_date_spot.py:111 | the next day exists unless the date is 9999-12-31, and its ordinal is one more |
| Calendar.PrevDayStep | examples/PythonExamples/nlp_date_spot.py:113 | the previous day exists unless the date is 0001-01-01, and its ordinal is one less |
| Calendar.ShiftDaysSpec | examples/PythonExamples/nlp_date_spot.py:111-114 | a shift by k succeeds exactly when ordinal + k stays in range, and lands on ordinal + k |
| Calendar.ShiftForward | examples/PythonExamples/nlp_date_spot.py:111-112 | the same for k ≥ 0 |
| Calendar.ShiftBackward | examples/PythonExamples/nlp_date_spot.py:113-114 | the same for -k ≤ 0 |
| Numerals.NatToString | examples/PythonExamples/nlp_date_spot.py:50 | `str(n)` is a non-empty string of ASCII digits |
| Numerals.CnDigitString | examples/PythonExamples/nlp_date_spot.py:76 | the join of CN_DIGIT values is all ASCII digits |
| Numerals.DecodeYear | examples/PythonExamples/nlp_date_spot.py:73-80 | the year path gives None exactly when the text is not Arabic digits and holds no CN_DIGIT character |
| Numerals.ScanFrom | examples/PythonExamples/nlp_date_spot.py:84-92 | the right-to-left fold leaves the tens multiplier at 1 or 10 |
| Numerals.ComponentValue | examples/PythonExamples/nlp_date_spot.py:81-97 | the month/day path gives None exactly for text that is neither Arabic digits nor all CN_DIGIT characters, and a Chinese result is at least 1 |
| Numerals.DecodeComponent | examples/PythonExamples/nlp_date_spot.py:81-97 | the right-to-left accumulator loop computes the fold `ComponentValue` |
| Numerals.DateStrToDigit | examples/PythonExamples/nlp_date_spot.py:72-97 | `date_str_to_digit` selects the year path for "year" and the month/day path otherwise |
| NumeralProperties.CnNumeralValue | examples/PythonExamples/nlp_date_spot.py:11 | each of 零…九 is in CN_DIGIT with its value and is neither an ASCII digit nor 十 |
| NumeralProperties.NatToStringRoundTrip | examples/PythonExamples/nlp_date_spot.py:75 | `int(str(n)) == n` |
| NumeralProperties.NatToStringLength | examples/PythonExamples/nlp_date_spot.py:75 | `str(n)` has four characters exactly for 1000..9999 |
| NumeralProperties.ArabicComponent | examples/PythonExamples/nlp_date_spot.py:82-83 | an Arabic month or day is read as written, without a range check |
| NumeralProperties.PaddedMonthRoundTrip | examples/PythonExamples/nlp_date_spot.py:59 | the zero-padded back-filled month has two characters and decodes back to the month |
| NumeralProperties.CnDigitStringEmpty | examples/PythonExamples/nlp_date_spot.py:76 | the join is empty exactly when no character is in CN_DIGIT |
| NumeralProperties.DecodeYearNone | examples/PythonExamples/nlp_date_spot.py:73-80 | the year path gives None exactly for non-Arabic text with no CN_DIGIT character |
| NumeralProperties.CnDigitStringInverse | examples/PythonExamples/nlp_date_spot.py:76 | the join inverts spelling digits one Chinese numeral each |
| NumeralProperties.ChineseYearDigits | examples/PythonExamples/nlp_date_spot.py:73-80 | a year spelled digit by digit in Chinese decodes as its Arabic form |
| NumeralProperties.TwoDigitYearInCentury | examples/PythonExamples/nlp_date_spot.py:75 | a two-digit year falls in the reference year's century |
| NumeralProperties.BackfilledYear | examples/PythonExamples/nlp_date_spot.py:50-75 | a back-filled four-digit year decodes to itself; the years 100..999 do not |
| NumeralProperties.ComponentOutcome | examples/PythonExamples/nlp_date_spot.py:82-97 | the month/day path gives None exactly for non-Arabic text holding a character outside CN_DIGIT, and a Chinese result is ≥ 1 |
| NumeralProperties.StandardForms | examples/PythonExamples/nlp_date_spot.py:84-97 | a → a, 十 → 10, 十b → 10+b, a十 → 10a, a十b → 10a+b for digits 1..9 |
| NumeralProperties.ChineseNumeralRoundTrip | examples/PythonExamples/nlp_date_spot.py:84-97 | the usual Chinese spelling of every 1..99 decodes to that number |
| NumeralProperties.ComponentQuirks | examples/PythonExamples/nlp_date_spot.py:82-97 | 零 → 1, 一二 → 3, "" → 1, 1十 → None, "13" → 13 |
| NumeralProperties.YearQuirk | examples/PythonExamples/nlp_date_spot.py:76 | the year join drops the ASCII digits of a mixed spelling: 2零1七 decodes to 2007 under reference year 2021 |
| NumeralProperties.ArabicYearTable | examples/PythonExamples/tests/test_date_parser.py:22-26 | "17", "2017", "07" decode to 2017, 2017, 2007 under the reference year 2021 |
| NumeralProperties.ChineseYearTable | examples/PythonExamples/tests/test_date_parser.py:24-25 | 一七 and 二零一七 decode to 2017 |
| NumeralProperties.MonthDayTable | examples/PythonExamples/tests/test_date_parser.py:27-34 | the month and day cases of the table decode as listed |
| Grammar.WithoutSpaces | examples/PythonExamples/nlp_date_spot.py:164 | removing spaces leaves a text no longer than the original and free of spaces |
| Grammar.Derives | examples/PythonExamples/nlp_date_spot.py:153-165 | a text with a parse tree is at least as long as the fields and 当天 the tree spells |
| Grammar.WithoutSpacesIdentity | examples/PythonExamples/nlp_date_spot.py:164 | text without spaces is unchanged by `%ignore " "` |
| Grammar.FieldTextChars | examples/PythonExamples/nlp_date_spot.py:157-161 | a field spells only DIGIT characters and its closing literal |
| Grammar.FieldsTextChars | examples/PythonExamples/nlp_date_spot.py:155-161 | the fields of a tree spell only DIGIT characters and closing literals |
| Grammar.YieldSpaceFree | examples/PythonExamples/nlp_date_spot.py:155-161 | a tree's text has no spaces |
| Grammar.YieldSameDayUnbroken | examples/PythonExamples/nlp_date_spot.py:155 | a tree's text holds 当 only as part of 当天 |
| Grammar.YieldDerives | examples/PythonExamples/nlp_date_spot.py:154-164 | every well-formed tree is a parse tree of the text it spells |
| Grammar.DemoDerivation | examples/PythonExamples/nlp_date_spot.py:179 | 二零一七年七月二十三日当天 derives the tree with all three fields and 当天 |
| Grammar.Ambiguity | examples/PythonExamples/nlp_date_spot.py:157-159 | "07-11" has two parse trees (years+days and months+days) |
| Grammar.SpacesAndSameDay | examples/PythonExamples/nlp_date_spot.py:155-164 | spaces between tokens are ignored, and a space inside 当天 leaves no tree |
| Visitor.ScanValues | examples/PythonExamples/nlp_date_spot.py:62-69 | the value of a node of the grammar is one to four DIGIT characters |
| Visitor.Collected | examples/PythonExamples/nlp_date_spot.py:40-60 | the visited dictionary keeps hour, minute and second and holds no key beyond year, month and day |
| Visitor.DateTreeVisitor.constructor | examples/PythonExamples/nlp_date_spot.py:40-41 | the dictionary starts as hour, minute and second "00" |
| Visitor.DateTreeVisitor.Years | examples/PythonExamples/nlp_date_spot.py:43-44 | the year field becomes the node's digits, nothing else changes |
| Visitor.DateTreeVisitor.Months | examples/PythonExamples/nlp_date_spot.py:46-51 | a missing year is back-filled, the month becomes the node's digits, a present year is kept |
| Visitor.DateTreeVisitor.Days | examples/PythonExamples/nlp_date_spot.py:53-60 | a missing year and month are back-filled, the day becomes the node's digits, present fields are kept |
| Visitor.DateTreeVisitor.Visit | examples/PythonExamples/nlp_date_spot.py:167-168 | visiting years, months and days in order yields `Collected(t, today)` |
| Visitor.CollectedFields | examples/PythonExamples/nlp_date_spot.py:40-60 | after a visit: the exact key set, the "00" time fields, month ⇒ year, day ⇒ year and month, digits kept as written, back-filled values from the reference date |
| DateBuilder.MonthRange | examples/PythonExamples/nlp_date_spot.py:135-139 | a month range succeeds exactly for a month 1..12 of a year 1..9999, has two valid dates of that month, and otherwise raises ValueError |
| DateBuilder.YearRange | examples/PythonExamples/nlp_date_spot.py:140-141 | a year range succeeds exactly for a year 1..9999, has two valid dates of that year, and otherwise raises ValueError |
| DateBuilder.BuildDate | examples/PythonExamples/nlp_date_spot.py:128-142 | build_date returns at most two dates, all valid, or raises TypeError or ValueError |
| DateBuilder.BuildDateShape | examples/PythonExamples/nlp_date_spot.py:128-142 | no field gives [], a day gives one valid date or an error, a month or a year gives two; TypeError exactly for a day without a year or a month |
| DateBuilder.MonthRangeExact | examples/PythonExamples/nlp_date_spot.py:134-139 | a month range runs from day 1 to the month's length, and the dates between its ends are exactly the dates of the month |
| DateBuilder.YearRangeExact | examples/PythonExamples/nlp_date_spot.py:140-141 | a year range spans the year's length, and the dates between its ends are exactly the dates of the year |
| DateBuilder.FebruaryRange | examples/PythonExamples/nlp_date_spot.py:135-139 | February's range ends on the 29th exactly in leap years |
| Keywords.Switch | examples/PythonExamples/nlp_date_spot.py:102-115 | a day keyword gives a valid date, a month keyword a month 1..12, and a failure is OverflowError or ValueError |
| Keywords.ParseCnDate | examples/PythonExamples/nlp_date_spot.py:100-125 | text outside the twelve keywords gives [], and a keyword gives at most two dates, all valid |
| Keywords.NotAKeyword | examples/PythonExamples/nlp_date_spot.py:116-117 | text outside the twelve keywords gives [] |
| Keywords.YearKeywords | examples/PythonExamples/nlp_date_spot.py:103-120 | 今年/明年/去年/前年 give the whole year ref.year + 0/+1/-1/-2, or ValueError out of range |
| Keywords.PreviousMonth | examples/PythonExamples/nlp_date_spot.py:108 | the month before is ref.month - 1, or 12 in January; it fails only in January of year 1 |
| Keywords.FollowingMonth | examples/PythonExamples/nlp_date_spot.py:109 | the month after is ref.month + 1, or 1 in December; it fails only in December of 9999 |
| Keywords.MonthKeywords | examples/PythonExamples/nlp_date_spot.py:107-122 | 本月/上月/下月 give the whole current, previous or next month, always in the reference year |
| Keywords.DayKeywords | examples/PythonExamples/nlp_date_spot.py:110-124 | 今天/明天/后天/昨天/前天 give the one date at ordinal + 0/+1/+2/-1/-2, or OverflowError past either end |
| Keywords.DayKeywordResult | examples/PythonExamples/nlp_date_spot.py:110-124 | a day keyword's answer is the day shift's date as a one-element list, or the shift's error |
| Keywords.DefaultReferenceKeywords | examples/PythonExamples/nlp_date_spot.py:100-125 | on 2021-09-01: 上月 is August 2021, 昨天 is 2021-08-31, 前年 is 2019 |
| Resolver.Resolve | examples/PythonExamples/nlp_date_spot.py:145-176 | a non-None answer has one or two dates, all valid unless the fallback parser supplied it; without a fallback or a tree, an error is a keyword error or UnexpectedInput |
| Resolver.DecodeParams | examples/PythonExamples/nlp_date_spot.py:170-174 | the loop keeps exactly the fields that decode, under their own names |
| Resolver.ParseDatetime | examples/PythonExamples/nlp_date_spot.py:145-176 | keyword table, then fallback, then grammar, visitor, decoding and build_date compute `Resolve` |
| ResolverProperties.KeywordValuesNonEmpty | examples/PythonExamples/nlp_date_spot.py:100-125 | every keyword that succeeds gives one or two dates |
| ResolverProperties.KeywordsWin | examples/PythonExamples/nlp_date_spot.py:146-148 | a keyword is answered by the table alone, whatever the fallback and the grammar would give |
| ResolverProperties.GrammarDatesFields | examples/PythonExamples/nlp_date_spot.py:166-175 | the grammar path is build_date of the tree's decoded fields, with the reference year and month back-filled |
| ResolverProperties.NoDateFound | examples/PythonExamples/nlp_date_spot.py:170-176 | the answer is None exactly when no field decodes and none is back-filled |
| ResolverProperties.GrammarResultShape | examples/PythonExamples/nlp_date_spot.py:170-176 | a grammar answer has one date exactly when a day decodes, and two otherwise |
| ResolverProperties.UndecodableMonth | examples/PythonExamples/nlp_date_spot.py:170-175 | a month that does not decode leaves the back-filled reference year: the whole reference year |
| ResolverProperties.UndecodableMonthWithDay | examples/PythonExamples/nlp_date_spot.py:128-132 | for any reference date and any tree, with or without a year and 当天, a month that does not decode with a day that does raises TypeError (a day that does not decode either leaves only the year, and the whole year results) |
| ResolverProperties.UndecodableYearWithDay | examples/PythonExamples/nlp_date_spot.py:128-132 | for any reference date, a written year that does not decode, with a day that does, raises TypeError |
| ResolverProperties.GrammarPath | examples/PythonExamples/nlp_date_spot.py:149-176 | text outside the keywords that the fallback rejects takes the grammar path |
| ResolverProperties.KeywordsAreTwoCharacters | examples/PythonExamples/nlp_date_spot.py:102-115 | every keyword has two characters |
| ResolverProperties.DemoFieldValues | examples/PythonExamples/nlp_date_spot.py:72-97 | 二零一七, 七 and 二十三 decode to 2017, 7 and 23 |
| ResolverProperties.FullDate | examples/PythonExamples/nlp_date_spot.py:131-133 | for any reference date, three decoded fields give that single date, or ValueError if it is not a date |
| ResolverProperties.DemoGrammarDates | examples/PythonExamples/nlp_date_spot.py:166-175 | the demo tree resolves to 2017-07-23 |
| ResolverProperties.DemoSentence | examples/PythonExamples/nlp_date_spot.py:179-182 | 二零一七年七月二十三日当天 derives its tree and resolves to [2017-07-23] |
| ResolverProperties.DayAlone | examples/PythonExamples/nlp_date_spot.py:53-60 | 11日当天 derives its tree in the grammar and is 2021-09-11 under the default reference date |
| ResolverProperties.YearAlone | examples/PythonExamples/nlp_date_spot.py:140-141 | 2017年 derives its tree in the grammar and is 2017-01-01 to 2017-12-31 |
| Spans.DateText | examples/PythonExamples/nlp_date_spot.py:25-32 | the date text is "" for no entities and otherwise starts with the first entity's word |
| Spans.SameDayCount | examples/PythonExamples/nlp_date_spot.py:30-31 | the number of 当天 entities is at most the number of entities |
| Spans.CollectDateText | examples/PythonExamples/nlp_date_spot.py:25-32 | the loop returns the first word followed by the later 当天 words (`DateText`), and "" for no entities |
| Spans.RepeatSplit | examples/PythonExamples/nlp_date_spot.py:31 | m + n copies of 当天 are m copies followed by n copies |
| Spans.CountSnoc | examples/PythonExamples/nlp_date_spot.py:30-31 | appending an entity adds one to the count exactly when its word is 当天 |
| Spans.CountConcat | examples/PythonExamples/nlp_date_spot.py:30-31 | the count of a concatenation is the sum of the counts |
| Spans.SameDayRunIsRepeat | examples/PythonExamples/nlp_date_spot.py:26-31 | the appended text is one 当天 per later 当天 entity |
| Spans.DateTextShape | examples/PythonExamples/nlp_date_spot.py:25-32 | the text starts with the first word, followed by 2 characters per later 当天 entity, all of them 当天 |
| Spans.OtherEntitiesIgnored | examples/PythonExamples/nlp_date_spot.py:30 | removing a later entity that is not 当天 leaves the text unchanged |

## Left out

- The tagger call (`hanlp.load` and its model), every `print`, and the module-level demo are left out. The model starts from the tagger's entity list, with its entities as `NerEntry` values.
- `dateutil.parser.parse` is a foreign parser. Its answer is the parameter `fallback`: None when it raises, otherwise the date it returns. It returns a `datetime`, whose time of day reaches the formatted output; `fallback` is a `Date`, so the model drops that time of day.
- The Lark engine's choice among several parse trees, and its error messages, are left out. The tree it returns is the parameter `tree`, constrained only by `ParserAnswer`: some parse tree of the text, or a rejection when there is none.
- `strftime` rendering and the tuple of strings are left out. Dates stay (year, month, day) triples, and the time fields of `date_dict` ("00") reach `build_date` as the keyword arguments hour=0, minute=0 and second=0, which its `**keyword` parameter takes in and ignores.
- `str.isdigit` and `int` are modelled for ASCII digits only. Python also accepts other Unicode decimal digits, but the grammar's DIGIT class admits none of them.
- The `TypeError` check in `__scan_values__` is left out. The nodes of this grammar hold only tokens, so it is never raised.
- The order in which `parse_datetime` walks `date_dict` is left out. The loop's result does not depend on it, and the model picks any remaining key.
- `date_parser` (quarters, half-years, weeks, 上午/下午, the entity merger, half-open ranges) is not part of this model. Only its numeral test cases, which `date_str_to_digit` agrees with, appear as lemmas.
- Calendar.ShiftDays: steps one day at a time instead of going through the ordinal. `Calendar.ShiftDaysSpec` proves that it agrees with ordinal arithmetic.
- ResolverProperties.GrammarDatesFields: stated for reference years 1000..9999. For a reference year 100..999, the back-filled `str(year)` decodes into another year (`NumeralProperties.BackfilledYear`).
- ResolverProperties.UndecodableMonth: stated for reference years 1000..9999, because it rests on `GrammarDatesFields` and the back-filled year must decode to itself.
