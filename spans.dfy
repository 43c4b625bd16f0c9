// The span fold of process_input: the first entity recognised in the text is
// taken as the date expression, and every later entity whose word is exactly
// 当天 ("that day") is appended to it.

module Spans {
  /** The word that is appended: 当天, "on that day". */
  const SAME_DAY := "当天"

  /** One named-entity span as the tagger reports it: word, tag, start and end offsets. */
  datatype NerEntry = NerEntry(word: string, tag: string, start: int, end: int)

  /** The 当天 words among `es`, concatenated left to right. */
  function SameDayRun(es: seq<NerEntry>): string
  {
    if es == [] then ""
    else SameDayRun(es[..|es| - 1]) + (if es[|es| - 1].word == SAME_DAY then SAME_DAY else "")
  }

  /** The text the fold produces: the first word followed by the later 当天 words. */
  function DateText(ner: seq<NerEntry>): (text: string)
    ensures ner == [] ==> text == ""
    ensures ner != [] ==> |ner[0].word| <= |text| && text[..|ner[0].word|] == ner[0].word
  {
    if ner == [] then "" else ner[0].word + SameDayRun(ner[1..])
  }

  /** The number of entries whose word is 当天, counted from the front. */
  function SameDayCount(es: seq<NerEntry>): (n: nat)
    ensures n <= |es|
  {
    if es == [] then 0 else (if es[0].word == SAME_DAY then 1 else 0) + SameDayCount(es[1..])
  }

  /** `n` copies of 当天. */
  function Repeat(n: nat): (r: string)
    ensures |r| == 2 * n
  {
    if n == 0 then "" else SAME_DAY + Repeat(n - 1)
  }

  /** The loop of process_input over the tagger's entities. */
  method CollectDateText(ner: seq<NerEntry>) returns (dtText: string)
    ensures dtText == DateText(ner)
  {
    dtText := "";
    var i := 0;
    while i < |ner|
      invariant 0 <= i <= |ner|
      invariant i == 0 ==> dtText == ""
      invariant i > 0 ==> dtText == ner[0].word + SameDayRun(ner[1..i])
    {
      var word := ner[i].word;
      if i == 0 {
        dtText := word;
        i := i + 1;
        assert ner[1..i] == [];
        continue;
      }
      if word == SAME_DAY {
        dtText := dtText + word;
      }
      assert ner[1..i + 1][..i - 1] == ner[1..i];
      i := i + 1;
    }
    if |ner| > 0 {
      assert ner[1..|ner|] == ner[1..];
    }
  }

  lemma {:induction false} RepeatSplit(m: nat, n: nat)
    ensures Repeat(m + n) == Repeat(m) + Repeat(n)
  {
    if m > 0 {
      RepeatSplit(m - 1, n);
      assert Repeat(m + n) == SAME_DAY + Repeat(m - 1 + n);
      assert SAME_DAY + (Repeat(m - 1) + Repeat(n)) == (SAME_DAY + Repeat(m - 1)) + Repeat(n);
    }
  }

  lemma {:induction false} CountSnoc(es: seq<NerEntry>, e: NerEntry)
    ensures SameDayCount(es + [e]) == SameDayCount(es) + (if e.word == SAME_DAY then 1 else 0)
  {
    if es != [] {
      assert (es + [e])[1..] == es[1..] + [e];
      CountSnoc(es[1..], e);
    }
  }

  /** The appended words are exactly as many copies of 当天 as there are 当天 entities. */
  lemma {:induction false} SameDayRunIsRepeat(es: seq<NerEntry>)
    ensures SameDayRun(es) == Repeat(SameDayCount(es))
  {
    if es != [] {
      var init, last := es[..|es| - 1], es[|es| - 1];
      assert es == init + [last];
      SameDayRunIsRepeat(init);
      CountSnoc(init, last);
      var k := if last.word == SAME_DAY then 1 else 0;
      RepeatSplit(SameDayCount(init), k);
      assert Repeat(k) == (if last.word == SAME_DAY then SAME_DAY else "");
    }
  }

  /** The result starts with the first entity's word, and what follows it is
      two characters per later 当天 entity, all of them 当天; an empty tagging gives "". */
  lemma DateTextShape(ner: seq<NerEntry>)
    ensures ner == [] ==> DateText(ner) == ""
    ensures ner != [] ==> DateText(ner)[..|ner[0].word|] == ner[0].word
    ensures ner != [] ==> |DateText(ner)| == |ner[0].word| + 2 * SameDayCount(ner[1..])
    ensures ner != [] ==> DateText(ner)[|ner[0].word|..] == Repeat(SameDayCount(ner[1..]))
  {
    if ner != [] {
      SameDayRunIsRepeat(ner[1..]);
    }
  }

  /** Later entities other than 当天 have no effect: dropping one leaves the text unchanged. */
  lemma {:induction false} OtherEntitiesIgnored(ner: seq<NerEntry>, j: int)
    requires 1 <= j < |ner| && ner[j].word != SAME_DAY
    ensures DateText(ner[..j] + ner[j + 1..]) == DateText(ner)
  {
    var rest := ner[1..j] + ner[j + 1..];
    var dropped := ner[..j] + ner[j + 1..];
    assert dropped[0] == ner[0];
    assert dropped[1..] == rest;
    assert ner[1..] == ner[1..j] + [ner[j]] + ner[j + 1..];
    CountSnoc(ner[1..j], ner[j]);
    CountConcat(ner[1..j], ner[j + 1..]);
    CountConcat(ner[1..j] + [ner[j]], ner[j + 1..]);
    assert SameDayCount(rest) == SameDayCount(ner[1..]);
    SameDayRunIsRepeat(rest);
    SameDayRunIsRepeat(ner[1..]);
    assert SameDayRun(dropped[1..]) == SameDayRun(ner[1..]);
  }

  lemma {:induction false} CountConcat(a: seq<NerEntry>, b: seq<NerEntry>)
    ensures SameDayCount(a + b) == SameDayCount(a) + SameDayCount(b)
  {
    if a != [] {
      assert (a + b)[0] == a[0];
      assert (a + b)[1..] == a[1..] + b;
      CountConcat(a[1..], b);
    } else {
      assert a + b == b;
    }
  }
}
