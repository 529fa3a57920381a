/** COUNTER\ItemContributorId: an identifier of an item's contributor, of one of
    the contributor identifier types. */
module ItemContributorId {
  import opened Nodes
  import opened Php
  import opened Xml
  import opened ReportBuilder

  const ClassName: string := "COUNTER\\ItemContributorId"

  /** __construct($type, $value): two strings, the type one of
      getContributorIdentifierTypes(). */
  function New(idType: Raw, value: Raw): (r: Result<ItemContributorId>)
    ensures r.Ok? <==> idType.RStr? && value.RStr? && idType.s in ContributorIdentifierTypes
    ensures r.Ok? ==> r.value == ItemContributorId(idType.s, value.s)
    ensures idType.RStr? && value.RStr? && idType.s !in ContributorIdentifierTypes ==>
      r == Err(InvalidType(idType.s))
  {
    var t :- ValidateString(idType);
    var v :- ValidateString(value);
    if t !in ContributorIdentifierTypes then Err(InvalidType(t))
    else Ok(ItemContributorId(t, v))
  }

  /** build($array): Type and Value fields, or one type => value pair. */
  function Build(data: Raw): (r: Result<ItemContributorId>)
    ensures !data.RArr? ==> r == Err(BuildFailed(ClassName, data))
    ensures r.Ok? ==> r.value.idType in ContributorIdentifierTypes
  {
    match data
    case RArr(es) =>
      if Isset(es, StrKey("Type")) && Isset(es, StrKey("Value")) then
        New(Get(es, StrKey("Type")), Get(es, StrKey("Value")))
      else if |es| == 1 && IsAssociative(es) then
        New(KeyValue(es[0].key), es[0].value)
      else BuildFailure(ClassName, data)
    case _ => BuildFailure(ClassName, data)
  }

  /** Set Type and Value fields give (Type, Value). */
  lemma BuildFromFields(es: seq<Entry>)
    requires Isset(es, StrKey("Type")) && Isset(es, StrKey("Value"))
    ensures Build(RArr(es)) == New(Get(es, StrKey("Type")), Get(es, StrKey("Value")))
  {
  }

  /** A one-key map k => v, with k neither Type nor Value, gives (k, v). */
  lemma BuildFromSingleKey(k: string, v: Raw)
    requires k != "Type" && k != "Value"
    ensures var r := Build(RArr([Entry(StrKey(k), v)]));
      (r.Ok? <==> v.RStr? && k in ContributorIdentifierTypes)
      && (r.Ok? ==> r.value == ItemContributorId(k, v.s))
  {
    var es := [Entry(StrKey(k), v)];
    LookupMissing(es, StrKey("Type"));
    assert IsAssociative(es);
  }

  /** Any other array fails: Type or Value unset and not exactly one string key. */
  lemma BuildRejectsOtherArrays(es: seq<Entry>)
    requires !(Isset(es, StrKey("Type")) && Isset(es, StrKey("Value")))
    requires |es| != 1 || !es[0].key.StrKey?
    ensures Build(RArr(es)) == Err(BuildFailed(ClassName, RArr(es)))
  {
  }

  /** asDOMDocument(): an ItemContributorID element with Type then Value. */
  function Dom(c: ItemContributorId): (x: Xml)
    ensures x.Element? && x.name == "ItemContributorID" && x.attrs == []
    ensures x.children == [Leaf("Type", c.idType), Leaf("Value", c.value)]
  {
    Element("", "ItemContributorID", [], [Leaf("Type", c.idType), Leaf("Value", c.value)])
  }

  /** ItemContributorId::build as a builder of objects, for buildMultiple. */
  function Builder(): Raw -> Result<Node>
  {
    (v: Raw) => match Build(v)
                case Ok(c) => Ok(NItemContributorId(c))
                case Err(e) => Err(e)
  }

  /** The trees of a list of identifiers, in order. */
  function Doms(cs: seq<ItemContributorId>): (xs: seq<Xml>)
    ensures |xs| == |cs| && forall i :: 0 <= i < |cs| ==> xs[i] == Dom(cs[i])
  {
    seq(|cs|, i requires 0 <= i < |cs| => Dom(cs[i]))
  }

  /** Every tree of a list of identifiers is an ItemContributorID element. */
  lemma DomsNames(cs: seq<ItemContributorId>)
    ensures Names(Doms(cs)) == Repeat("ItemContributorID", |cs|)
  {
  }

  /** A list of identifiers as objects. */
  function AsNodes(cs: seq<ItemContributorId>): (ns: seq<Node>)
    ensures |ns| == |cs| && forall i :: 0 <= i < |cs| ==> ns[i] == NItemContributorId(cs[i])
  {
    seq(|cs|, i requires 0 <= i < |cs| => NItemContributorId(cs[i]))
  }

  /** A list of identifiers as loose values. */
  function AsObjects(cs: seq<ItemContributorId>): (vs: seq<Raw>)
    ensures vs == ReportBuilder.Objects(AsNodes(cs))
  {
    ReportBuilder.Objects(AsNodes(cs))
  }

  /** A list of identifier objects passes the zero-or-more check and reads
      back as the same identifiers. */
  lemma ListValidates(env: Env, cs: seq<ItemContributorId>)
    ensures ZeroOrMoreItemContributorIds(env, ListOf(AsObjects(cs))) == Ok(cs)
  {
    ObjectsValidate(env, cs);
    var r := ZeroOrMoreItemContributorIds(env, ListOf(AsObjects(cs)));
    var xs := AsObjects(cs);
    assert r.value == cs by {
      assert forall i :: 0 <= i < |xs| ==> RObj(NItemContributorId(r.value[i])) == xs[i] == RObj(NItemContributorId(cs[i]));
    }
  }

  /** The objects pass the zero-or-more check unchanged. */
  lemma ObjectsValidate(env: Env, cs: seq<ItemContributorId>)
    ensures ValidateZeroOrMoreOf(env, ListOf(AsObjects(cs)), "ItemContributorId") == Ok(AsObjects(cs))
  {
    ClassNameSpellings("ItemContributorId");
    BuiltListValidatesZeroOrMore(env, AsNodes(cs), "ItemContributorId");
  }

  /** The canonical input for an identifier. */
  function ToRaw(c: ItemContributorId): Raw
  {
    RArr([Entry(StrKey("Type"), RStr(c.idType)), Entry(StrKey("Value"), RStr(c.value))])
  }

  /** Building from the canonical input gives back any valid identifier. */
  lemma RoundTrip(c: ItemContributorId)
    requires c.idType in ContributorIdentifierTypes
    ensures Build(ToRaw(c)) == Ok(c)
  {
    var es := ToRaw(c).entries;
    assert Get(es, StrKey("Type")) == RStr(c.idType);
    LookupFirst(es, StrKey("Value"), 1);
  }

  /** The canonical inputs of a list of identifiers. */
  function ListToRaw(cs: seq<ItemContributorId>): Raw
  {
    ListOf(seq(|cs|, i requires 0 <= i < |cs| => ToRaw(cs[i])))
  }

  /** A list of canonical inputs of valid identifiers builds, through
      buildMultiple, to those identifiers in order. */
  lemma ListRoundTrip(cs: seq<ItemContributorId>)
    requires forall i :: 0 <= i < |cs| ==> cs[i].idType in ContributorIdentifierTypes
    ensures BuildMultiple(Builder(), ListToRaw(cs)) == Ok(ListOf(AsObjects(cs)))
  {
    var raws := seq(|cs|, i requires 0 <= i < |cs| => ToRaw(cs[i]));
    forall i | 0 <= i < |raws| ensures Builder()(raws[i]) == Ok(AsNodes(cs)[i]) {
      RoundTrip(cs[i]);
    }
    BuildMultipleOfList(Builder(), raws, AsNodes(cs));
  }

  /** Only the three contributor identifier types build. */
  lemma OnlyListedTypes(t: string, v: string)
    requires t !in ["ORCID", "ISNI", "Proprietary"]
    ensures Build(ToRaw(ItemContributorId(t, v))) == Err(InvalidType(t))
  {
    var es := ToRaw(ItemContributorId(t, v)).entries;
    assert Get(es, StrKey("Type")) == RStr(t);
    LookupFirst(es, StrKey("Value"), 1);
  }
}
