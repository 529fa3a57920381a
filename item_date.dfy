/** COUNTER\ItemDate: a typed date of an item. */
module ItemDate {
  import opened Nodes
  import opened Php
  import opened Xml
  import opened Dates
  import opened ReportBuilder

  const ClassName: string := "COUNTER\\ItemDate"

  /** __construct($type, $value): the type a string among getDateTypes() (checked
      first), the value a \DateTime or a date string. */
  function New(env: Env, dateType: Raw, value: Raw): (r: Result<ItemDate>)
    ensures r.Ok? <==> dateType.RStr? && dateType.s in DateTypes && ValidateDate(env, value).Ok?
    ensures r.Ok? ==> r.value == ItemDate(dateType.s, ValidateDate(env, value).value)
    ensures dateType.RStr? && dateType.s !in DateTypes ==> r == Err(InvalidType(dateType.s))
  {
    var t :- ValidateString(dateType);
    if t !in DateTypes then Err(InvalidType(t))
    else
      var d :- ValidateDate(env, value);
      Ok(ItemDate(t, d))
  }

  /** build($array): Type and Value fields, or one type => value pair. */
  function Build(env: Env, data: Raw): (r: Result<ItemDate>)
    ensures !data.RArr? ==> r == Err(BuildFailed(ClassName, data))
    ensures r.Ok? ==> r.value.dateType in DateTypes
  {
    match data
    case RArr(es) =>
      if Isset(es, StrKey("Type")) && Isset(es, StrKey("Value")) then
        New(env, Get(es, StrKey("Type")), Get(es, StrKey("Value")))
      else if |es| == 1 && IsAssociative(es) then
        New(env, KeyValue(es[0].key), es[0].value)
      else BuildFailure(ClassName, data)
    case _ => BuildFailure(ClassName, data)
  }

  /** Set Type and Value fields give (Type, Value). */
  lemma BuildFromFields(env: Env, es: seq<Entry>)
    requires Isset(es, StrKey("Type")) && Isset(es, StrKey("Value"))
    ensures Build(env, RArr(es)) == New(env, Get(es, StrKey("Type")), Get(es, StrKey("Value")))
  {
  }

  /** A one-key map k => v, with k neither Type nor Value, gives (k, v). */
  lemma BuildFromSingleKey(env: Env, k: string, v: Raw)
    requires k != "Type" && k != "Value"
    ensures var r := Build(env, RArr([Entry(StrKey(k), v)]));
      (r.Ok? <==> k in DateTypes && ValidateDate(env, v).Ok?)
      && (r.Ok? ==> r.value == ItemDate(k, ValidateDate(env, v).value))
  {
    var es := [Entry(StrKey(k), v)];
    LookupMissing(es, StrKey("Type"));
    assert IsAssociative(es);
  }

  /** Any other array fails: Type or Value unset and not exactly one string key. */
  lemma BuildRejectsOtherArrays(env: Env, es: seq<Entry>)
    requires !(Isset(es, StrKey("Type")) && Isset(es, StrKey("Value")))
    requires |es| != 1 || !es[0].key.StrKey?
    ensures Build(env, RArr(es)) == Err(BuildFailed(ClassName, RArr(es)))
  {
  }

  /** asDOMDocument(): an ItemDate element with Type then the Y-m-d Value. */
  function Dom(d: ItemDate): (x: Xml)
    ensures x.Element? && x.name == "ItemDate" && x.attrs == []
    ensures x.children == [Leaf("Type", d.dateType), Leaf("Value", FormatYmd(d.value))]
  {
    Element("", "ItemDate", [], [Leaf("Type", d.dateType), Leaf("Value", FormatYmd(d.value))])
  }

  /** ItemDate::build as a builder of objects, for buildMultiple. */
  function Builder(env: Env): Raw -> Result<Node>
  {
    (v: Raw) => match Build(env, v)
                case Ok(d) => Ok(NItemDate(d))
                case Err(e) => Err(e)
  }

  /** The trees of a list of item dates, in order. */
  function Doms(ds: seq<ItemDate>): (xs: seq<Xml>)
    ensures |xs| == |ds| && forall i :: 0 <= i < |ds| ==> xs[i] == Dom(ds[i])
  {
    seq(|ds|, i requires 0 <= i < |ds| => Dom(ds[i]))
  }

  /** Every tree of a list of item dates is an ItemDate element. */
  lemma DomsNames(ds: seq<ItemDate>)
    ensures Names(Doms(ds)) == Repeat("ItemDate", |ds|)
  {
  }

  /** A list of item dates as objects. */
  function AsNodes(ds: seq<ItemDate>): (ns: seq<Node>)
    ensures |ns| == |ds| && forall i :: 0 <= i < |ds| ==> ns[i] == NItemDate(ds[i])
  {
    seq(|ds|, i requires 0 <= i < |ds| => NItemDate(ds[i]))
  }

  /** A list of item dates as loose values. */
  function AsObjects(ds: seq<ItemDate>): (vs: seq<Raw>)
    ensures vs == ReportBuilder.Objects(AsNodes(ds))
  {
    ReportBuilder.Objects(AsNodes(ds))
  }

  /** A list of item date objects passes the zero-or-more check and reads
      back as the same item dates. */
  lemma ListValidates(env: Env, ds: seq<ItemDate>)
    ensures ZeroOrMoreItemDates(env, ListOf(AsObjects(ds))) == Ok(ds)
  {
    ObjectsValidate(env, ds);
    var r := ZeroOrMoreItemDates(env, ListOf(AsObjects(ds)));
    var xs := AsObjects(ds);
    assert r.value == ds by {
      assert forall i :: 0 <= i < |xs| ==> RObj(NItemDate(r.value[i])) == xs[i] == RObj(NItemDate(ds[i]));
    }
  }

  /** The objects pass the check unchanged. */
  lemma ObjectsValidate(env: Env, ds: seq<ItemDate>)
    ensures ValidateZeroOrMoreOf(env, ListOf(AsObjects(ds)), "ItemDate") == Ok(AsObjects(ds))
  {
    ClassNameSpellings("ItemDate");
    BuiltListValidatesZeroOrMore(env, AsNodes(ds), "ItemDate");
  }

  /** The canonical input for an item date. */
  function ToRaw(d: ItemDate): Raw
  {
    RArr([Entry(StrKey("Type"), RStr(d.dateType)), Entry(StrKey("Value"), RObj(NDateTime(d.value)))])
  }

  /** Building from the canonical input gives back any item date of a listed type. */
  lemma RoundTrip(env: Env, d: ItemDate)
    requires d.dateType in DateTypes
    ensures Build(env, ToRaw(d)) == Ok(d)
  {
    var es := ToRaw(d).entries;
    assert Get(es, StrKey("Type")) == RStr(d.dateType);
    LookupFirst(es, StrKey("Value"), 1);
  }

  /** The canonical inputs of a list of item dates. */
  function ListToRaw(ds: seq<ItemDate>): Raw
  {
    ListOf(seq(|ds|, i requires 0 <= i < |ds| => ToRaw(ds[i])))
  }

  /** A list of canonical inputs of item dates of listed types builds,
      through buildMultiple, to those item dates in order. */
  lemma ListRoundTrip(env: Env, ds: seq<ItemDate>)
    requires forall i :: 0 <= i < |ds| ==> ds[i].dateType in DateTypes
    ensures BuildMultiple(Builder(env), ListToRaw(ds)) == Ok(ListOf(AsObjects(ds)))
  {
    var raws := seq(|ds|, i requires 0 <= i < |ds| => ToRaw(ds[i]));
    forall i | 0 <= i < |raws| ensures Builder(env)(raws[i]) == Ok(AsNodes(ds)[i]) {
      RoundTrip(env, ds[i]);
    }
    BuildMultipleOfList(Builder(env), raws, AsNodes(ds));
  }

  /** A date string is stored as the date it parses to, and an unparseable one
      fails as validateOneOf reports it. */
  lemma DateStringValue(env: Env, t: string, s: string)
    requires t in DateTypes
    ensures env.parseDate(s).Some? ==> New(env, RStr(t), RStr(s)) == Ok(ItemDate(t, env.parseDate(s).value))
    ensures env.parseDate(s).None? ==> New(env, RStr(t), RStr(s)) == Err(UnparsableString("DateTime"))
  {
    assert ExpectedClassName("\\DateTime") == "DateTime";
  }
}
