/** COUNTER\DateRange: a reporting period from a begin date to an end date. */
module DateRange {
  import opened Nodes
  import opened Php
  import opened Xml
  import opened Dates
  import opened ReportBuilder

  const ClassName: string := "COUNTER\\DateRange"

  /** __construct($begin, $end): each a \DateTime or a date string, begin first. */
  function New(env: Env, begin: Raw, end: Raw): (r: Result<DateRange>)
    ensures r.Ok? <==> ValidateDate(env, begin).Ok? && ValidateDate(env, end).Ok?
    ensures r.Ok? ==> r.value == DateRange(ValidateDate(env, begin).value, ValidateDate(env, end).value)
    ensures ValidateDate(env, begin).Err? ==> r == Err(ValidateDate(env, begin).error)
  {
    var b :- ValidateDate(env, begin);
    var e :- ValidateDate(env, end);
    Ok(DateRange(b, e))
  }

  /** build($array): Begin and End fields, or a two-element list. */
  function Build(env: Env, data: Raw): (r: Result<DateRange>)
    ensures !data.RArr? ==> r == Err(BuildFailed(ClassName, data))
  {
    match data
    case RArr(es) =>
      if Isset(es, StrKey("Begin")) && Isset(es, StrKey("End")) then
        New(env, Get(es, StrKey("Begin")), Get(es, StrKey("End")))
      else if |es| == 2 && !IsAssociative(es) then
        New(env, Get(es, IntKey(0)), Get(es, IntKey(1)))
      else BuildFailure(ClassName, data)
    case _ => BuildFailure(ClassName, data)
  }

  /** Set Begin and End fields give (Begin, End). */
  lemma BuildFromFields(env: Env, es: seq<Entry>)
    requires Isset(es, StrKey("Begin")) && Isset(es, StrKey("End"))
    ensures Build(env, RArr(es)) == New(env, Get(es, StrKey("Begin")), Get(es, StrKey("End")))
  {
  }

  /** A two-element list [a, b] gives (a, b). */
  lemma BuildFromPair(env: Env, a: Raw, b: Raw)
    ensures Build(env, ListOf([a, b])) == New(env, a, b)
  {
    var es := ListOf([a, b]).entries;
    LookupMissing(es, StrKey("Begin"));
    assert !IsAssociative(es);
    assert Get(es, IntKey(0)) == a;
    LookupFirst(es, IntKey(1), 1);
  }

  /** Without both Begin and End set, an array of other than two entries, or one
      with a string key, fails; lists of one and of three dates included. */
  lemma BuildRejectsOtherArrays(env: Env, es: seq<Entry>)
    requires !(Isset(es, StrKey("Begin")) && Isset(es, StrKey("End")))
    requires |es| != 2 || IsAssociative(es)
    ensures Build(env, RArr(es)) == Err(BuildFailed(ClassName, RArr(es)))
  {
  }

  /** asDOMDocument(): a Period element with the Y-m-d Begin then End. */
  function Dom(p: DateRange): (x: Xml)
    ensures x.Element? && x.name == "Period" && x.attrs == []
    ensures x.children == [Leaf("Begin", FormatYmd(p.begin)), Leaf("End", FormatYmd(p.end))]
  {
    Element("", "Period", [], [Leaf("Begin", FormatYmd(p.begin)), Leaf("End", FormatYmd(p.end))])
  }

  /** The canonical input for a period. */
  function ToRaw(p: DateRange): Raw
  {
    RArr([Entry(StrKey("Begin"), RObj(NDateTime(p.begin))), Entry(StrKey("End"), RObj(NDateTime(p.end)))])
  }

  /** Building from the canonical input gives back the period. */
  lemma RoundTrip(env: Env, p: DateRange)
    ensures Build(env, ToRaw(p)) == Ok(p)
  {
    var es := ToRaw(p).entries;
    assert Get(es, StrKey("Begin")) == RObj(NDateTime(p.begin));
    LookupFirst(es, StrKey("End"), 1);
  }
}
