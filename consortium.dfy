/** COUNTER\Consortium: a consortium's well-known name and optional code. */
module Consortium {
  import opened Nodes
  import opened Php
  import opened Xml
  import opened ReportBuilder

  const ClassName: string := "COUNTER\\Consortium"

  /** __construct($wellKnownName, $code = ''): both must be strings. */
  function New(wellKnownName: Raw, code: Raw): (r: Result<Consortium>)
    ensures r.Ok? <==> wellKnownName.RStr? && code.RStr?
    ensures r.Ok? ==> r.value.wellKnownName == wellKnownName.s && r.value.code == code.s
    ensures !wellKnownName.RStr? ==> r == Err(InvalidString(GetType(wellKnownName)))
    ensures wellKnownName.RStr? && !code.RStr? ==> r == Err(InvalidString(GetType(code)))
  {
    var n :- ValidateString(wellKnownName);
    var c :- ValidateString(code);
    Ok(Consortium(c, n))
  }

  /** build($array): a WellKnownName field; one name => code pair; a
      one-element list; a bare string; anything else fails. */
  function Build(data: Raw): (r: Result<Consortium>)
    ensures data.RStr? ==> r == Ok(Consortium("", data.s))
    ensures !data.RArr? && !data.RStr? ==> r == Err(BuildFailed(ClassName, data))
  {
    match data
    case RArr(es) =>
      if Isset(es, StrKey("WellKnownName")) then
        New(Get(es, StrKey("WellKnownName")), OrEmpty(Get(es, StrKey("Code"))))
      else if |es| == 1 && IsAssociative(es) then
        New(KeyValue(es[0].key), es[0].value)
      else if |es| == 1 then
        New(Get(es, IntKey(0)), RStr(""))
      else BuildFailure(ClassName, data)
    case RStr(_) => New(data, RStr(""))
    case _ => BuildFailure(ClassName, data)
  }

  /** A set WellKnownName gives that name and the Code field, or '' when the
      code is falsy. */
  lemma BuildFromFields(es: seq<Entry>)
    requires Isset(es, StrKey("WellKnownName"))
    ensures var n, c := Get(es, StrKey("WellKnownName")), Get(es, StrKey("Code"));
      var r := Build(RArr(es));
      (r.Ok? <==> n.RStr? && (!Truthy(c) || c.RStr?))
      && (r.Ok? ==> r.value == Consortium(if Truthy(c) then c.s else "", n.s))
  {
  }

  /** A one-key map k => v, with k other than WellKnownName: the name is k and
      the code v. */
  lemma BuildFromSingleKey(k: string, v: Raw)
    requires k != "WellKnownName"
    ensures var r := Build(RArr([Entry(StrKey(k), v)]));
      (r.Ok? <==> v.RStr?) && (r.Ok? ==> r.value == Consortium(v.s, k))
  {
    var es := [Entry(StrKey(k), v)];
    LookupMissing(es, StrKey("WellKnownName"));
    assert IsAssociative(es);
  }

  /** A one-element list [x]: the name is x and the code ''. */
  lemma BuildFromSingleElement(x: Raw)
    ensures var r := Build(RArr([Entry(IntKey(0), x)]));
      (r.Ok? <==> x.RStr?) && (r.Ok? ==> r.value == Consortium("", x.s))
  {
    var es := [Entry(IntKey(0), x)];
    LookupMissing(es, StrKey("WellKnownName"));
    assert !IsAssociative(es);
    assert Get(es, IntKey(0)) == x;
  }

  /** Any other array fails: no WellKnownName set and other than one entry. */
  lemma BuildRejectsOtherArrays(es: seq<Entry>)
    requires !Isset(es, StrKey("WellKnownName")) && |es| != 1
    ensures Build(RArr(es)) == Err(BuildFailed(ClassName, RArr(es)))
  {
  }

  /** asDOMDocument(): an optional Code child, omitted when the code is falsy,
      then WellKnownName, always present. */
  function Dom(c: Consortium): (x: Xml)
    ensures x.Element? && x.name == "Consortium" && x.attrs == []
    ensures ChildNames(x) == (if TruthyString(c.code) then ["Code"] else []) + ["WellKnownName"]
    ensures x.children[|x.children| - 1] == Leaf("WellKnownName", c.wellKnownName)
    ensures TruthyString(c.code) ==> x.children[0] == Leaf("Code", c.code)
  {
    Element("", "Consortium", [], OptionalLeaf("Code", c.code) + [Leaf("WellKnownName", c.wellKnownName)])
  }

  /** The canonical input for a consortium. */
  function ToRaw(c: Consortium): Raw
  {
    RArr([Entry(StrKey("WellKnownName"), RStr(c.wellKnownName)), Entry(StrKey("Code"), RStr(c.code))])
  }

  /** The consortium that building from its canonical input gives: a "0"
      code reads back as '', which renders the same. */
  function Normalised(c: Consortium): (n: Consortium)
    ensures n.wellKnownName == c.wellKnownName
    ensures TruthyString(c.code) ==> n == c
    ensures Dom(n) == Dom(c)
  {
    Consortium(if TruthyString(c.code) then c.code else "", c.wellKnownName)
  }

  /** Building from the canonical input gives back the consortium, with a "0"
      code read as '', and so the same rendered tree. */
  lemma RoundTrip(c: Consortium)
    ensures Build(ToRaw(c)) == Ok(Normalised(c))
    ensures Dom(Build(ToRaw(c)).value) == Dom(c)
  {
    var es := ToRaw(c).entries;
    assert Get(es, StrKey("WellKnownName")) == RStr(c.wellKnownName);
    LookupFirst(es, StrKey("Code"), 1);
  }
}
