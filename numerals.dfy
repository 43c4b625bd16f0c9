/** Numeral decoding of date_str_to_digit: Arabic or Chinese numerals to year,
    month and day numbers. */
module Numerals {
  import opened Wrappers

  /** CN_DIGIT: the value of each Chinese numeral; 两 is another two and 十 (ten) the tens marker. */
  const CN_DIGIT: map<char, nat> := map[
    '零' := 0, '一' := 1, '二' := 2, '两' := 2, '三' := 3, '四' := 4,
    '五' := 5, '六' := 6, '七' := 7, '八' := 8, '九' := 9, '十' := 10]

  /** The field names of the visitor's dictionary; only "year" selects the year path. */
  const YEAR_KEY := "year"

  predicate IsAsciiDigit(c: char) {
    '0' <= c <= '9'
  }

  predicate AllAsciiDigits(s: string) {
    forall i :: 0 <= i < |s| ==> IsAsciiDigit(s[i])
  }

  /** str.isdigit() on ASCII text: at least one character, and all of them digits. */
  predicate IsDigits(s: string) {
    |s| > 0 && AllAsciiDigits(s)
  }

  predicate AllCnDigits(s: string) {
    forall i :: 0 <= i < |s| ==> s[i] in CN_DIGIT
  }

  function DigitOf(c: char): nat
    requires IsAsciiDigit(c)
  {
    c as int - '0' as int
  }

  function DigitChar(v: nat): char
    requires v < 10
  {
    ('0' as int + v) as char
  }

  /** int(s) for a string of ASCII digits (leading zeros allowed). */
  function DecimalValue(s: string): nat
    requires AllAsciiDigits(s)
    decreases |s|
  {
    if s == [] then 0 else 10 * DecimalValue(s[..|s| - 1]) + DigitOf(s[|s| - 1])
  }

  /** str(n): the decimal numeral of n without leading zeros. */
  function NatToString(n: nat): (s: string)
    ensures IsDigits(s)
    decreases n
  {
    (if n < 10 then "" else NatToString(n / 10)) + [DigitChar(n % 10)]
  }

  /** str(n).rjust(2, "0"). */
  function Pad2(n: nat): string {
    var s := NatToString(n);
    if |s| < 2 then "0" + s else s
  }

  // ---------------------------------------------------------------------------
  // Year path

  /** The Chinese-to-Arabic join of the year path: each character found in
      CN_DIGIT becomes str(value) (so 十 becomes "10"); any other character is dropped. */
  function CnDigitString(s: string): (t: string)
    ensures AllAsciiDigits(t)
  {
    if s == [] then ""
    else (if s[0] in CN_DIGIT then NatToString(CN_DIGIT[s[0]]) else "") + CnDigitString(s[1..])
  }

  /** The century rule: four characters are the year itself, any other length
      is added to the hundreds of the reference year (int(ref.year / 100) * 100). */
  function YearFromDigits(s: string, refYear: nat): int
    requires IsDigits(s)
  {
    if |s| == 4 then DecimalValue(s) else (refYear / 100) * 100 + DecimalValue(s)
  }

  /** date_str_to_digit(s, "year") with reference year refYear. */
  function DecodeYear(s: string, refYear: nat): (r: Option<int>)
    ensures r.None? <==> !IsDigits(s) && CnDigitString(s) == ""
  {
    if IsDigits(s) then Some(YearFromDigits(s, refYear))
    else
      var t := CnDigitString(s);
      if IsDigits(t) then Some(YearFromDigits(t, refYear)) else None
  }

  // ---------------------------------------------------------------------------
  // Month / day path

  /** The accumulators of the right-to-left scan: two_digit (the active tens
      multiplier) and digit (the running total). */
  datatype Scan = Scan(twoDigit: nat, digit: nat)

  /** One step of the scan: 十 becomes the multiplier, a digit is added times the multiplier. */
  function ScanStep(acc: Scan, c: char): Scan
    requires c in CN_DIGIT
  {
    var v := CN_DIGIT[c];
    if v >= 10 then Scan(v, acc.digit) else Scan(acc.twoDigit, acc.digit + v * acc.twoDigit)
  }

  /** The accumulators after scanning s from its last character to its first. */
  function ScanFrom(s: string): (acc: Scan)
    requires AllCnDigits(s)
    ensures acc.twoDigit == 1 || acc.twoDigit == 10
  {
    if s == [] then Scan(1, 0) else ScanStep(ScanFrom(s[1..]), s[0])
  }

  /** The correction after the loop: a total below the multiplier gets the multiplier added. */
  function Settle(acc: Scan): nat {
    if acc.digit < acc.twoDigit then acc.digit + acc.twoDigit else acc.digit
  }

  /** What date_str_to_digit(s, typ) returns for any typ other than "year". */
  function ComponentValue(s: string): (r: Option<int>)
    ensures r.None? <==> !IsDigits(s) && !AllCnDigits(s)
    ensures r.Some? && !IsDigits(s) ==> r.value >= 1
  {
    if IsDigits(s) then Some(DecimalValue(s))
    else if AllCnDigits(s) then Some(Settle(ScanFrom(s)))
    else None
  }

  /** The month/day branch of date_str_to_digit: Arabic digits are read as
      they are, Chinese numerals are folded right to left. */
  method DecodeComponent(s: string) returns (r: Option<int>)
    ensures r == ComponentValue(s)
  {
    if IsDigits(s) {
      return Some(DecimalValue(s));
    }
    var twoDigit, digit := 1, 0;
    var i := |s|;
    while i > 0
      invariant 0 <= i <= |s|
      invariant AllCnDigits(s[i..])
      invariant Scan(twoDigit, digit) == ScanFrom(s[i..])
    {
      i := i - 1;
      var c := s[i];
      if c in CN_DIGIT {
        assert s[i..][1..] == s[i + 1..];
        var tmp := CN_DIGIT[c];
        if tmp >= 10 {
          twoDigit := tmp;
        } else {
          digit := digit + tmp * twoDigit;
        }
      } else {
        return None;
      }
    }
    assert s[0..] == s;
    if digit < twoDigit {
      digit := digit + twoDigit;
    }
    return Some(digit);
  }

  /** date_str_to_digit(s, typ): the year path for "year", the month/day path otherwise. */
  function FieldValue(s: string, typ: string, refYear: nat): Option<int> {
    if typ == YEAR_KEY then DecodeYear(s, refYear) else ComponentValue(s)
  }

  method DateStrToDigit(s: string, typ: string, refYear: nat) returns (r: Option<int>)
    ensures r == FieldValue(s, typ, refYear)
  {
    if typ == YEAR_KEY {
      r := DecodeYear(s, refYear);
    } else {
      r := DecodeComponent(s);
    }
  }
}
