/** The date grammar as a relation between a text and its parse trees: an
    optional year field, an optional month field and an optional day field, in
    that order, then an optional 当天. ValidYears, ValidMonths and ValidDays give
    each field's shape, and spaces between tokens are ignored. */
module Grammar {
  import opened Wrappers

  /** The characters of the DIGIT terminal; its character class also holds the double quote. */
  const DIGIT_CHARS: set<char> := {
    '"', '0', '1', '2', '3', '4', '5', '6', '7', '8', '9',
    '零', '一', '二', '两', '三', '四', '五', '六', '七', '八', '九', '十'}

  /** The trailing literal "当天" (on that day), accepted but adding no field. */
  const SAME_DAY := "当天"

  predicate IsDigitToken(c: char) {
    c in DIGIT_CHARS
  }

  predicate DigitTokens(s: string) {
    forall i :: 0 <= i < |s| ==> IsDigitToken(s[i])
  }

  /** A years, months or days node: the DIGIT tokens it holds, and the literal
      that closes it ("" for a days node without 日). */
  datatype Field = Field(digits: string, mark: string)

  /** A parse tree of the `date` rule. */
  datatype DateTree = DateTree(years: Option<Field>, months: Option<Field>, days: Option<Field>, sameDay: bool)

  predicate ValidYears(f: Field) {
    (|f.digits| == 2 || |f.digits| == 4) && DigitTokens(f.digits) && (f.mark == "年" || f.mark == "-" || f.mark == "/")
  }

  predicate ValidMonths(f: Field) {
    1 <= |f.digits| <= 2 && DigitTokens(f.digits) && (f.mark == "月" || f.mark == "-" || f.mark == "/")
  }

  predicate ValidDays(f: Field) {
    1 <= |f.digits| <= 3 && DigitTokens(f.digits) && (f.mark == "日" || f.mark == "")
  }

  predicate WellFormed(t: DateTree) {
    && (t.years.Some? ==> ValidYears(t.years.value))
    && (t.months.Some? ==> ValidMonths(t.months.value))
    && (t.days.Some? ==> ValidDays(t.days.value))
  }

  function FieldText(f: Option<Field>): string {
    match f
    case None => ""
    case Some(x) => x.digits + x.mark
  }

  function FieldsText(t: DateTree): string {
    FieldText(t.years) + FieldText(t.months) + FieldText(t.days)
  }

  /** The text a tree spells, spaces left out. */
  function Yield(t: DateTree): string {
    FieldsText(t) + (if t.sameDay then SAME_DAY else "")
  }

  /** `%ignore " "`: the text with its spaces removed. */
  function WithoutSpaces(s: string): (r: string)
    ensures |r| <= |s|
    ensures forall i :: 0 <= i < |r| ==> r[i] != ' '
  {
    if s == [] then "" else (if s[0] == ' ' then "" else [s[0]]) + WithoutSpaces(s[1..])
  }

  /** 当天 is a single token, so no space may separate its two characters. */
  predicate SameDayUnbroken(s: string) {
    forall i :: 0 <= i < |s| - 1 && s[i] == '当' ==> s[i + 1] == '天'
  }

  /** `t` is a parse tree of `text`. */
  predicate Derives(text: string, t: DateTree)
    ensures Derives(text, t) ==> |FieldsText(t)| + (if t.sameDay then 2 else 0) <= |text|
  {
    WellFormed(t) && WithoutSpaces(text) == Yield(t) && SameDayUnbroken(text)
  }

  /** What the grammar engine may answer for `text`: one of its parse trees,
      or a rejection (an UnexpectedInput exception) when it has none. Which
      tree it picks for an ambiguous text is the engine's choice. */
  ghost predicate ParserAnswer(text: string, answer: Option<DateTree>) {
    match answer
    case Some(t) => Derives(text, t)
    case None => forall t :: !Derives(text, t)
  }

  // ---------------------------------------------------------------------------

  /** Text without spaces is its own space-free form. */
  lemma {:induction false} WithoutSpacesIdentity(s: string)
    requires forall i :: 0 <= i < |s| ==> s[i] != ' '
    ensures WithoutSpaces(s) == s
  {
    if s != [] {
      WithoutSpacesIdentity(s[1..]);
      assert s == [s[0]] + s[1..];
    }
  }

  /** Characters that may occur in a field: DIGIT tokens and the closing literals. */
  predicate FieldChar(c: char) {
    IsDigitToken(c) || c in {'年', '月', '日', '-', '/'}
  }

  lemma FieldTextChars(f: Option<Field>)
    requires f.Some? ==> ValidYears(f.value) || ValidMonths(f.value) || ValidDays(f.value)
    ensures forall i :: 0 <= i < |FieldText(f)| ==> FieldChar(FieldText(f)[i])
  {
    if f.Some? {
      var x := f.value;
      assert x.mark == "" || x.mark == "年" || x.mark == "月" || x.mark == "日" || x.mark == "-" || x.mark == "/";
      forall i | 0 <= i < |FieldText(f)| ensures FieldChar(FieldText(f)[i]) {
        if i < |x.digits| {
          assert FieldText(f)[i] == x.digits[i];
        } else {
          assert FieldText(f)[i] == x.mark[i - |x.digits|];
        }
      }
    }
  }

  lemma FieldsTextChars(t: DateTree)
    requires WellFormed(t)
    ensures forall i :: 0 <= i < |FieldsText(t)| ==> FieldChar(FieldsText(t)[i])
  {
    var fields := FieldsText(t);
    FieldTextChars(t.years);
    FieldTextChars(t.months);
    FieldTextChars(t.days);
    forall i | 0 <= i < |fields| ensures FieldChar(fields[i]) {
      var a, b := |FieldText(t.years)|, |FieldText(t.months)|;
      if i < a {
        assert fields[i] == FieldText(t.years)[i];
      } else if i < a + b {
        assert fields[i] == FieldText(t.months)[i - a];
      } else {
        assert fields[i] == FieldText(t.days)[i - a - b];
      }
    }
  }

  lemma YieldSpaceFree(t: DateTree)
    requires WellFormed(t)
    ensures forall i :: 0 <= i < |Yield(t)| ==> Yield(t)[i] != ' '
  {
    var fields, text := FieldsText(t), Yield(t);
    FieldsTextChars(t);
    forall i | 0 <= i < |text| ensures text[i] != ' ' {
      if i < |fields| {
        assert text[i] == fields[i];
      } else {
        assert text[i] == SAME_DAY[i - |fields|];
      }
    }
  }

  lemma YieldSameDayUnbroken(t: DateTree)
    requires WellFormed(t)
    ensures SameDayUnbroken(Yield(t))
  {
    var fields, text := FieldsText(t), Yield(t);
    FieldsTextChars(t);
    assert forall i :: 0 <= i < |fields| ==> text[i] == fields[i] && text[i] != '当';
    forall i | 0 <= i < |text| - 1 && text[i] == '当' ensures text[i + 1] == '天' {
      assert i >= |fields|;
      assert text[i + 1] == SAME_DAY[i + 1 - |fields|];
    }
  }

  /** Every well-formed tree is a parse tree of the text it spells. */
  lemma YieldDerives(t: DateTree)
    requires WellFormed(t)
    ensures Derives(Yield(t), t)
  {
    YieldSpaceFree(t);
    WithoutSpacesIdentity(Yield(t));
    YieldSameDayUnbroken(t);
  }

  /** The expression of the demo sentence derives the tree with all three fields and 当天. */
  lemma DemoDerivation()
    ensures Derives("二零一七年七月二十三日当天",
                    DateTree(Some(Field("二零一七", "年")), Some(Field("七", "月")), Some(Field("二十三", "日")), true))
  {
    var t := DateTree(Some(Field("二零一七", "年")), Some(Field("七", "月")), Some(Field("二十三", "日")), true);
    YieldDerives(t);
    assert Yield(t) == "二零一七年七月二十三日当天";
  }

  /** "07-11" has two parse trees, year and day or month and day; the tree is
      therefore an input of the resolver rather than a function of the text. */
  lemma Ambiguity()
    ensures Derives("07-11", DateTree(Some(Field("07", "-")), None, Some(Field("11", "")), false))
    ensures Derives("07-11", DateTree(None, Some(Field("07", "-")), Some(Field("11", "")), false))
  {
    WithoutSpacesIdentity("07-11");
  }

  /** Spaces are ignored between tokens, but a space inside 当天 leaves the text without a tree. */
  lemma SpacesAndSameDay(t: DateTree)
    ensures Derives("11 日", DateTree(None, None, Some(Field("11", "日")), false))
    ensures !Derives("11日当 天", t)
  {
    WithoutSpacesIdentity("日");
    assert "11 日"[1..] == "1 日" && "1 日"[1..] == " 日" && " 日"[1..] == "日";
    assert "11日当 天"[3] == '当' && "11日当 天"[4] == ' ';
  }
}
