/** parse_datetime: the keyword table first, then the fallback parser, then the
    date grammar with the visitor, the numeral decoder and build_date. */
module Resolver {
  import opened Wrappers
  import opened Calendar
  import opened Numerals
  import opened Grammar
  import opened Visitor
  import opened DateBuilder
  import opened Keywords

  /** The reference date now() returns. */
  const DEFAULT_TODAY := Date(2021, 9, 1)

  /** The params dictionary: every field of the visitor's dictionary whose text
      decodes, under the same name; a field that decodes to None is left out. */
  function DecodedParams(fields: map<string, string>, refYear: nat): map<string, int> {
    map k | k in fields && FieldValue(fields[k], k, refYear).Some? :: FieldValue(fields[k], k, refYear).value
  }

  /** The loop of parse_datetime that decodes each field of the dictionary. */
  method DecodeParams(fields: map<string, string>, refYear: nat) returns (params: map<string, int>)
    ensures params == DecodedParams(fields, refYear)
  {
    params := map[];
    var todo := fields.Keys;
    while todo != {}
      invariant todo <= fields.Keys
      invariant params == map k | k in fields && k !in todo && FieldValue(fields[k], k, refYear).Some?
                                :: FieldValue(fields[k], k, refYear).value
      decreases todo
    {
      var key :| key in todo;
      var digit := DateStrToDigit(fields[key], key, refYear);
      if digit.Some? {
        params := params[key := digit.value];
      }
      todo := todo - {key};
    }
  }

  /** A keyword argument of build_date(**params). */
  function Param(params: map<string, int>, key: string): Option<int> {
    if key in params then Some(params[key]) else None
  }

  /** The grammar path for the tree the parser chose: visit, decode, build. */
  function GrammarDates(t: DateTree, today: Date): Result<seq<Date>>
    requires ValidDate(today)
  {
    var params := DecodedParams(Collected(t, today), today.year);
    BuildDate(Param(params, "year"), Param(params, "month"), Param(params, "day"), today)
  }

  /** parse_datetime(text) against the reference date `today`, where `fallback`
      is what the generic date parser returns (None when it raises) and `tree`
      what the grammar parser returns (None when it raises). The answer is None
      when no date results, and otherwise the dates in order. */
  function Resolve(text: string, today: Date, fallback: Option<Date>, tree: Option<DateTree>): (r: Result<Option<seq<Date>>>)
    requires ValidDate(today)
    ensures r.Ok? && r.value.Some? ==> 1 <= |r.value.value| <= 2
    ensures r.Ok? && r.value.Some? && fallback.None? ==> forall i :: 0 <= i < |r.value.value| ==> ValidDate(r.value.value[i])
    ensures tree.None? && fallback.None? && r.Err? ==> ParseCnDate(text, today).Err? || r.error == UnexpectedInput
  {
    match ParseCnDate(text, today)
    case Err(e) => Err(e)
    case Ok(keyword) =>
      if |keyword| != 0 then Ok(Some(keyword))
      else if fallback.Some? then Ok(Some([fallback.value]))
      else
        match tree
        case None => Err(UnexpectedInput)
        case Some(t) =>
          match GrammarDates(t, today)
          case Err(e) => Err(e)
          case Ok(dates) => if |dates| == 0 then Ok(None) else Ok(Some(dates))
  }

  method ParseDatetime(text: string, today: Date, fallback: Option<Date>, tree: Option<DateTree>)
    returns (r: Result<Option<seq<Date>>>)
    requires ValidDate(today)
    requires ParserAnswer(text, tree)
    ensures r == Resolve(text, today, fallback, tree)
  {
    var rst := ParseCnDate(text, today);
    if rst.Err? {
      return Err(rst.error);
    }
    if |rst.value| != 0 {
      return Ok(Some(rst.value));
    }
    if fallback.Some? {
      return Ok(Some([fallback.value]));
    }
    if tree.None? {
      return Err(UnexpectedInput);
    }
    var visitor := new DateTreeVisitor();
    visitor.Visit(tree.value, today);
    var params := DecodeParams(visitor.dateDict, today.year);
    var built := BuildDate(Param(params, "year"), Param(params, "month"), Param(params, "day"), today);
    if built.Err? {
      return Err(built.error);
    }
    r := if |built.value| == 0 then Ok(None) else Ok(Some(built.value));
  }
}
