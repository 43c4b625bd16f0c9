/** Properties of the numeral decoder: the standard Chinese forms, the
    Arabic and Chinese round trips, the century rule and the decoder's quirks. */
module NumeralProperties {
  import opened Wrappers
  import opened Numerals

  /** The Chinese numeral for a digit 0..9. */
  function CnNumeral(v: nat): char
    requires v < 10
  {
    "零一二三四五六七八九"[v]
  }

  /** A digit string spelled one Chinese numeral per digit ("2017" as 二零一七). */
  function ToChineseDigits(t: string): (c: string)
    requires AllAsciiDigits(t)
    ensures |c| == |t|
  {
    if t == [] then [] else [CnNumeral(DigitOf(t[0]))] + ToChineseDigits(t[1..])
  }

  /** The usual Chinese spelling of 1..99: 七, 十, 十二, 三十, 二十三. */
  function ChineseNumeral(n: nat): string
    requires 1 <= n <= 99
  {
    if n < 10 then [CnNumeral(n)]
    else if n == 10 then "十"
    else if n < 20 then ['十', CnNumeral(n % 10)]
    else if n % 10 == 0 then [CnNumeral(n / 10), '十']
    else [CnNumeral(n / 10), '十', CnNumeral(n % 10)]
  }

  lemma CnNumeralValue(v: nat)
    requires v < 10
    ensures CnNumeral(v) in CN_DIGIT && CN_DIGIT[CnNumeral(v)] == v
    ensures !IsAsciiDigit(CnNumeral(v)) && CnNumeral(v) != '十'
  {
  }

  // ---------------------------------------------------------------------------
  // Decimal numerals

  /** int(str(n)) == n. */
  lemma {:induction false} NatToStringRoundTrip(n: nat)
    ensures DecimalValue(NatToString(n)) == n
    decreases n
  {
    var s := NatToString(n);
    var p := if n < 10 then "" else NatToString(n / 10);
    assert s == p + [DigitChar(n % 10)];
    assert s[..|s| - 1] == p;
    if n >= 10 {
      NatToStringRoundTrip(n / 10);
    }
  }

  /** str(n) has four characters exactly for the years 1000..9999. */
  lemma {:induction false} NatToStringLength(n: nat)
    ensures n < 10 ==> |NatToString(n)| == 1
    ensures 10 <= n < 100 ==> |NatToString(n)| == 2
    ensures 100 <= n < 1000 ==> |NatToString(n)| == 3
    ensures 1000 <= n < 10000 ==> |NatToString(n)| == 4
    ensures n >= 10000 ==> |NatToString(n)| >= 5
    decreases n
  {
    if n >= 10 {
      NatToStringLength(n / 10);
    }
  }

  /** An Arabic month or day is read as written, with no range check ("13" is 13). */
  lemma ArabicComponent(n: nat)
    ensures ComponentValue(NatToString(n)) == Some(n)
  {
    NatToStringRoundTrip(n);
  }

  /** The zero-padded month the visitor fills in decodes back to that month. */
  lemma PaddedMonthRoundTrip(m: nat)
    requires 1 <= m <= 12
    ensures |Pad2(m)| == 2
    ensures ComponentValue(Pad2(m)) == Some(m)
  {
    NatToStringLength(m);
    NatToStringRoundTrip(m);
    if m < 10 {
      var p := Pad2(m);
      assert NatToString(m) == [DigitChar(m)];
      assert p == ['0', DigitChar(m)];
      assert p[..1] == "0" && "0"[..0] == "";
      assert DecimalValue(p) == m;
    }
  }

  // ---------------------------------------------------------------------------
  // Year path

  lemma {:induction false} CnDigitStringEmpty(s: string)
    ensures CnDigitString(s) == "" <==> forall i :: 0 <= i < |s| ==> s[i] !in CN_DIGIT
  {
    if s != [] {
      CnDigitStringEmpty(s[1..]);
      if s[0] !in CN_DIGIT {
        forall i | 0 < i < |s| ensures s[i] == s[1..][i - 1] { }
      }
    }
  }

  /** The year path yields None exactly for non-Arabic text none of whose
      characters is a Chinese numeral. */
  lemma DecodeYearNone(s: string, refYear: nat)
    ensures DecodeYear(s, refYear).None? <==>
      !IsDigits(s) && forall i :: 0 <= i < |s| ==> s[i] !in CN_DIGIT
  {
    CnDigitStringEmpty(s);
  }

  lemma {:induction false} CnDigitStringInverse(t: string)
    requires AllAsciiDigits(t)
    ensures CnDigitString(ToChineseDigits(t)) == t
  {
    if t != [] {
      var c := ToChineseDigits(t);
      CnNumeralValue(DigitOf(t[0]));
      assert c[0] == CnNumeral(DigitOf(t[0]));
      assert c[1..] == ToChineseDigits(t[1..]);
      assert NatToString(DigitOf(t[0])) == [t[0]];
      CnDigitStringInverse(t[1..]);
      assert t == [t[0]] + t[1..];
    }
  }

  /** Spelling a year's digits in Chinese numerals changes nothing: 二零一七 is 2017, 一七 is 17. */
  lemma ChineseYearDigits(t: string, refYear: nat)
    requires IsDigits(t)
    ensures DecodeYear(ToChineseDigits(t), refYear) == DecodeYear(t, refYear)
  {
    CnDigitStringInverse(t);
    CnNumeralValue(DigitOf(t[0]));
    assert ToChineseDigits(t)[0] == CnNumeral(DigitOf(t[0]));
  }

  /** A two-character year falls in the reference year's century. */
  lemma TwoDigitYearInCentury(s: string, refYear: nat)
    requires IsDigits(s) && |s| == 2
    ensures DecodeYear(s, refYear).Some?
    ensures refYear / 100 * 100 <= DecodeYear(s, refYear).value < refYear / 100 * 100 + 100
  {
    assert s[..1][..0] == "";
    assert DecimalValue(s[..1]) == DigitOf(s[0]);
    assert DecimalValue(s) == 10 * DigitOf(s[0]) + DigitOf(s[1]);
  }

  /** The year the visitor fills in from the reference date decodes back to
      itself for four-digit years; for the years 100..999 it does not. */
  lemma BackfilledYear(y: nat, refYear: nat)
    ensures 1000 <= y <= 9999 ==> DecodeYear(NatToString(y), refYear) == Some(y)
    ensures 100 <= y < 1000 ==> DecodeYear(NatToString(y), y) == Some(y / 100 * 100 + y) != Some(y)
  {
    NatToStringLength(y);
    NatToStringRoundTrip(y);
  }

  // ---------------------------------------------------------------------------
  // Month / day path

  /** The month/day path fails exactly on non-Arabic text holding a character
      outside CN_DIGIT; a Chinese numeral always decodes to at least 1. */
  lemma ComponentOutcome(s: string)
    ensures ComponentValue(s).None? <==> !IsDigits(s) && exists i :: 0 <= i < |s| && s[i] !in CN_DIGIT
    ensures ComponentValue(s).Some? && !IsDigits(s) ==> ComponentValue(s).value >= 1
  {
  }

  /** The five standard spellings, for digits a and b in 1..9: a, 十, 十b, a十, a十b. */
  lemma StandardForms(a: nat, b: nat)
    requires 1 <= a <= 9 && 1 <= b <= 9
    ensures ComponentValue([CnNumeral(a)]) == Some(a)
    ensures ComponentValue("十") == Some(10)
    ensures ComponentValue(['十', CnNumeral(b)]) == Some(10 + b)
    ensures ComponentValue([CnNumeral(a), '十']) == Some(10 * a)
    ensures ComponentValue([CnNumeral(a), '十', CnNumeral(b)]) == Some(10 * a + b)
  {
    CnNumeralValue(a);
    CnNumeralValue(b);
    var na, nb := CnNumeral(a), CnNumeral(b);
    assert ScanFrom([na]) == Scan(1, a) by {
      assert [na][1..] == [];
    }
    assert ScanFrom("十") == Scan(10, 0) by {
      assert "十"[1..] == [];
    }
    assert ScanFrom(['十', nb]) == Scan(10, b) by {
      assert ['十', nb][1..] == [nb];
      assert [nb][1..] == [];
    }
    assert ScanFrom([na, '十']) == Scan(10, 10 * a) by {
      assert [na, '十'][1..] == "十";
      assert "十"[1..] == [];
    }
    assert ScanFrom([na, '十', nb]) == Scan(10, b + 10 * a) by {
      assert [na, '十', nb][1..] == ['十', nb];
      assert ['十', nb][1..] == [nb];
      assert [nb][1..] == [];
    }
  }

  /** Decoding inverts the usual Chinese spelling of every number 1..99. */
  lemma ChineseNumeralRoundTrip(n: nat)
    requires 1 <= n <= 99
    ensures ComponentValue(ChineseNumeral(n)) == Some(n)
  {
    if n < 10 {
      StandardForms(n, 1);
    } else if n == 10 {
      StandardForms(1, 1);
    } else if n < 20 {
      StandardForms(1, n % 10);
    } else if n % 10 == 0 {
      StandardForms(n / 10, 1);
    } else {
      StandardForms(n / 10, n % 10);
    }
  }

  /** The decoder's quirks, kept as written: 零 is 1, 一二 is 1 + 2, the empty
      text is 1, and Arabic digits mixed with Chinese ones fail. */
  lemma ComponentQuirks()
    ensures ComponentValue("零") == Some(1)
    ensures ComponentValue("一二") == Some(3)
    ensures ComponentValue("") == Some(1)
    ensures ComponentValue("1十") == None
    ensures ComponentValue("13") == Some(13)
  {
    assert "零"[1..] == [];
    assert "一二"[1..] == "二" && "二"[1..] == [];
    assert !AllCnDigits("1十") by {
      assert "1十"[0] !in CN_DIGIT;
    }
    assert "13"[..1] == "1" && "1"[..0] == "";
  }

  /** On the year path the join keeps only CN_DIGIT characters: the ASCII digits
      of a mixed spelling are dropped, so 2零1七 reads as 07, a year in the
      reference century. */
  lemma YearQuirk(s: string)
    requires s == "2零1七"
    ensures DecodeYear(s, 2021) == Some(2007)
  {
    assert !IsDigits(s) by { assert s[1] == '零'; }
    assert CnDigitString(s) == "07" by {
      assert NatToString(0) == "0" && NatToString(7) == "7";
      assert CnDigitString(s[3..]) == "7" by {
        assert s[3..][0] == '七' && s[3..][1..] == "";
      }
      assert CnDigitString(s[2..]) == "7" by {
        assert s[2..][0] !in CN_DIGIT && s[2..][1..] == s[3..];
      }
      assert CnDigitString(s[1..]) == "07" by {
        assert s[1..][0] == '零' && s[1..][1..] == s[2..];
      }
      assert s[0] !in CN_DIGIT;
    }
    assert DecimalValue("07") == 7 by {
      assert "07"[..1] == "0" && "0"[..0] == "";
    }
  }

  /** The Arabic year cases of the project's date-parser test table, with the reference year 2021. */
  lemma ArabicYearTable()
    ensures FieldValue("17", "year", 2021) == Some(2017)
    ensures FieldValue("2017", "year", 2021) == Some(2017)
    ensures FieldValue("07", "year", 2021) == Some(2007)
  {
    assert DecimalValue("17") == 17 by {
      assert "17"[..1] == "1" && "1"[..0] == "";
    }
    assert DecimalValue("07") == 7 by {
      assert "07"[..1] == "0" && "0"[..0] == "";
    }
    assert DecimalValue("2017") == 2017 by {
      assert "2017"[..3] == "201" && "201"[..2] == "20" && "20"[..1] == "2" && "2"[..0] == "";
    }
  }

  /** The Chinese year cases of the same table: 一七 and 二零一七 are 2017. */
  lemma ChineseYearTable()
    ensures FieldValue("一七", "year", 2021) == Some(2017)
    ensures FieldValue("二零一七", "year", 2021) == Some(2017)
  {
    ArabicYearTable();
    assert ToChineseDigits("17") == "一七" by {
      assert "17"[1..] == "7" && "7"[1..] == "";
    }
    ChineseYearDigits("17", 2021);
    assert ToChineseDigits("2017") == "二零一七" by {
      assert "2017"[1..] == "017" && "017"[1..] == "17" && "17"[1..] == "7" && "7"[1..] == "";
    }
    ChineseYearDigits("2017", 2021);
  }

  /** The month and day cases of the project's date-parser test table. */
  lemma MonthDayTable()
    ensures FieldValue("12", "month", 2021) == Some(12)
    ensures FieldValue("十二", "month", 2021) == Some(12)
    ensures FieldValue("1", "month", 2021) == Some(1)
    ensures FieldValue("一", "month", 2021) == Some(1)
    ensures FieldValue("31", "day", 2021) == Some(31)
    ensures FieldValue("三十一", "day", 2021) == Some(31)
    ensures FieldValue("1", "day", 2021) == Some(1)
    ensures FieldValue("一", "day", 2021) == Some(1)
  {
    assert "12"[..1] == "1" && "31"[..1] == "3" && "1"[..0] == "" && "3"[..0] == "";
    ChineseNumeralRoundTrip(12);
    assert ChineseNumeral(12) == "十二";
    ChineseNumeralRoundTrip(1);
    assert ChineseNumeral(1) == "一";
    ChineseNumeralRoundTrip(31);
    assert ChineseNumeral(31) == "三十一";
  }
}
