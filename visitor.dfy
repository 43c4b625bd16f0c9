/** DateTreeVisitor: collects the fields of a parse tree into a dictionary of
    strings, filling a missing year or month in from the reference date. */
module Visitor {
  import opened Wrappers
  import opened Calendar
  import opened Numerals
  import opened Grammar

  /** The dictionary a new visitor starts from. */
  const INITIAL_FIELDS: map<string, string> := map["hour" := "00", "minute" := "00", "second" := "00"]

  /** __scan_values__: the concatenated tokens of a node. The closing literal
      (年, 月, 日, - or /) is an anonymous token the tree does not keep. */
  function ScanValues(node: Field): (v: string)
    ensures ValidYears(node) || ValidMonths(node) || ValidDays(node) ==> DigitTokens(v) && 1 <= |v| <= 4
  {
    node.digits
  }

  /** The dictionary after a months node: a year from the reference date unless one is present. */
  function AfterMonths(d: map<string, string>, node: Field, today: Date): map<string, string>
    requires ValidDate(today)
  {
    var withYear := if "year" in d then d else d["year" := NatToString(today.year)];
    withYear["month" := ScanValues(node)]
  }

  /** The dictionary after a days node: year and month from the reference date unless present. */
  function AfterDays(d: map<string, string>, node: Field, today: Date): map<string, string>
    requires ValidDate(today)
  {
    var withYear := if "year" in d then d else d["year" := NatToString(today.year)];
    var withMonth := if "month" in d then withYear else withYear["month" := Pad2(today.month)];
    withMonth["day" := ScanValues(node)]
  }

  /** The dictionary after visiting the tree's years, months and days nodes, in that order. */
  function Collected(t: DateTree, today: Date): (c: map<string, string>)
    requires ValidDate(today)
    ensures INITIAL_FIELDS.Keys <= c.Keys <= {"hour", "minute", "second", "year", "month", "day"}
  {
    var d1 := if t.years.Some? then INITIAL_FIELDS["year" := ScanValues(t.years.value)] else INITIAL_FIELDS;
    var d2 := if t.months.Some? then AfterMonths(d1, t.months.value, today) else d1;
    if t.days.Some? then AfterDays(d2, t.days.value, today) else d2
  }

  class DateTreeVisitor {
    var dateDict: map<string, string>

    constructor ()
      ensures dateDict == INITIAL_FIELDS
    {
      dateDict := INITIAL_FIELDS;
    }

    method Years(node: Field)
      modifies this
      ensures dateDict == old(dateDict)["year" := ScanValues(node)]
    {
      dateDict := dateDict["year" := ScanValues(node)];
    }

    method Months(node: Field, today: Date)
      requires ValidDate(today)
      modifies this
      ensures dateDict == AfterMonths(old(dateDict), node, today)
      ensures "year" in dateDict && "month" in dateDict
      ensures "year" in old(dateDict) ==> dateDict["year"] == old(dateDict)["year"]
    {
      if "year" !in dateDict {
        dateDict := dateDict["year" := NatToString(today.year)];
      }
      dateDict := dateDict["month" := ScanValues(node)];
    }

    method Days(node: Field, today: Date)
      requires ValidDate(today)
      modifies this
      ensures dateDict == AfterDays(old(dateDict), node, today)
      ensures "year" in dateDict && "month" in dateDict && "day" in dateDict
      ensures "year" in old(dateDict) ==> dateDict["year"] == old(dateDict)["year"]
      ensures "month" in old(dateDict) ==> dateDict["month"] == old(dateDict)["month"]
    {
      var keys := dateDict.Keys;
      if "year" !in keys {
        dateDict := dateDict["year" := NatToString(today.year)];
      }
      if "month" !in keys {
        dateDict := dateDict["month" := Pad2(today.month)];
      }
      dateDict := dateDict["day" := ScanValues(node)];
    }

    /** Visitor.visit on the tree of `date`: its years, months and days nodes, in that order. */
    method Visit(t: DateTree, today: Date)
      requires ValidDate(today)
      requires dateDict == INITIAL_FIELDS
      modifies this
      ensures dateDict == Collected(t, today)
    {
      if t.years.Some? {
        Years(t.years.value);
      }
      if t.months.Some? {
        Months(t.months.value, today);
      }
      if t.days.Some? {
        Days(t.days.value, today);
      }
    }
  }

  // ---------------------------------------------------------------------------

  /** After the visit the time fields are "00"; a month implies a year and a day
      implies both; a field of the tree is kept as written, and a missing year
      or month is the reference date's str(year) or zero-padded month. */
  lemma CollectedFields(t: DateTree, today: Date)
    requires ValidDate(today)
    ensures var c := Collected(t, today);
      && c.Keys == INITIAL_FIELDS.Keys
                   + (if t.years.Some? || t.months.Some? || t.days.Some? then {"year"} else {})
                   + (if t.months.Some? || t.days.Some? then {"month"} else {})
                   + (if t.days.Some? then {"day"} else {})
      && c["hour"] == "00" && c["minute"] == "00" && c["second"] == "00"
      && ("month" in c ==> "year" in c)
      && ("day" in c ==> "year" in c && "month" in c)
      && (t.years.Some? ==> c["year"] == t.years.value.digits)
      && (t.years.None? && (t.months.Some? || t.days.Some?) ==> c["year"] == NatToString(today.year))
      && (t.months.Some? ==> c["month"] == t.months.value.digits)
      && (t.months.None? && t.days.Some? ==> c["month"] == Pad2(today.month))
      && (t.days.Some? ==> c["day"] == t.days.value.digits)
  {
  }
}
