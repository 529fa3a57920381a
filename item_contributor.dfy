/** COUNTER\ItemContributor: a contributor to an item, with zero or more
    identifiers, an optional name, and lists of affiliations and roles. */
module ItemContributor {
  import opened Nodes
  import opened Php
  import opened Xml
  import opened ReportBuilder
  import ItemContributorId

  const ClassName: string := "COUNTER\\ItemContributor"

  /** __construct($itemContributorIds = [], $itemContributorName = '',
      $itemContributorAffiliations = [], $itemContributorRoles = []): zero or
      more ItemContributorId objects, a string name, and affiliations and roles
      as validateStrings() normalises them; checked in that order. */
  function New(env: Env, ids: Raw, name: Raw, affiliations: Raw, roles: Raw): (r: Result<ItemContributor>)
    ensures r.Ok? <==> ZeroOrMoreItemContributorIds(env, ids).Ok? && name.RStr?
                       && ValidateStrings(affiliations).Ok? && ValidateStrings(roles).Ok?
    ensures r.Ok? ==> Ok(r.value.ids) == ZeroOrMoreItemContributorIds(env, ids)
    ensures r.Ok? ==> r.value.name == name.s
    ensures r.Ok? ==> r.value.affiliations == ValidateStrings(affiliations).value
                      && r.value.roles == ValidateStrings(roles).value
    ensures ZeroOrMoreItemContributorIds(env, ids).Err? ==> r == Err(ZeroOrMoreItemContributorIds(env, ids).error)
    ensures ZeroOrMoreItemContributorIds(env, ids).Ok? && !name.RStr? ==>
      r == Err(InvalidString(GetType(name)))
  {
    var xs :- ZeroOrMoreItemContributorIds(env, ids);
    var n :- ValidateString(name);
    var a :- ValidateStrings(affiliations);
    var ro :- ValidateStrings(roles);
    Ok(ItemContributor(xs, n, a, ro))
  }

  /** Whether any of the four fields build() looks for is set. */
  predicate AnyFieldSet(es: seq<Entry>)
  {
    Isset(es, StrKey("ItemContributorID")) || Isset(es, StrKey("ItemContributorName"))
    || Isset(es, StrKey("ItemContributorAffiliation")) || Isset(es, StrKey("ItemContributorRole"))
  }

  /** build($array): an array with any of the four fields set; an unset name
      is '', and an unset affiliation or role list is passed on as ''. */
  function Build(env: Env, data: Raw): (r: Result<ItemContributor>)
    ensures !data.RArr? ==> r == Err(BuildFailed(ClassName, data))
    ensures data.RArr? && !AnyFieldSet(data.entries) ==> r == Err(BuildFailed(ClassName, data))
  {
    match data
    case RArr(es) =>
      if AnyFieldSet(es) then
        var ids :- BuildMultiple(ItemContributorId.Builder(), Coalesce(es, StrKey("ItemContributorID"), RArr([])));
        New(env, ids, Coalesce(es, StrKey("ItemContributorName"), RStr("")),
            Coalesce(es, StrKey("ItemContributorAffiliation"), RStr("")),
            Coalesce(es, StrKey("ItemContributorRole"), RStr("")))
      else BuildFailure(ClassName, data)
    case _ => BuildFailure(ClassName, data)
  }

  /** ItemContributor::build as a builder of objects. */
  function Builder(env: Env): Raw -> Result<Node>
  {
    (v: Raw) => match Build(env, v)
                case Ok(x) => Ok(NItemContributor(x))
                case Err(e) => Err(e)
  }

  /** A missing affiliation or role is '' to validateStrings, which makes it
      the one-element list ['']: a contributor given only a name has one empty
      affiliation and one empty role. */
  lemma BuildFromNameOnly(env: Env, name: string)
    ensures Build(env, RArr([Entry(StrKey("ItemContributorName"), RStr(name))]))
            == Ok(ItemContributor([], name, [""], [""]))
  {
    var es := [Entry(StrKey("ItemContributorName"), RStr(name))];
    LookupMissing(es, StrKey("ItemContributorID"));
    LookupMissing(es, StrKey("ItemContributorAffiliation"));
    LookupMissing(es, StrKey("ItemContributorRole"));
    assert Get(es, StrKey("ItemContributorName")) == RStr(name);
  }

  /** With a field set, an unset affiliation or role list becomes [''], and a
      set one is what validateStrings makes of it. */
  lemma BuildDefaults(env: Env, es: seq<Entry>)
    requires AnyFieldSet(es)
    ensures var r := Build(env, RArr(es));
      (r.Ok? && !Isset(es, StrKey("ItemContributorAffiliation")) ==> r.value.affiliations == [""])
      && (r.Ok? && !Isset(es, StrKey("ItemContributorRole")) ==> r.value.roles == [""])
      && (r.Ok? && !Isset(es, StrKey("ItemContributorName")) ==> r.value.name == "")
      && (r.Ok? && !Isset(es, StrKey("ItemContributorID")) ==> r.value.ids == [])
      && (r.Ok? && Isset(es, StrKey("ItemContributorAffiliation")) ==>
            r.value.affiliations == ValidateStrings(Get(es, StrKey("ItemContributorAffiliation"))).value)
  {
  }

  /** asDOMDocument(): the identifiers in order, the name if set, then one
      ItemContributorAffiliation per affiliation and one ItemContributorRole
      per role, in list order. */
  function Dom(c: ItemContributor): (x: Xml)
    ensures x.Element? && x.name == "ItemContributor" && x.attrs == []
  {
    Element("", "ItemContributor", [],
      ItemContributorId.Doms(c.ids) + OptionalLeaf("ItemContributorName", c.name)
      + ValueElements("ItemContributorAffiliation", c.affiliations)
      + ValueElements("ItemContributorRole", c.roles))
  }

  /** The children come in the schema's order, with one element per list
      entry and no name element for an empty (or "0") name. */
  lemma DomOrder(c: ItemContributor)
    ensures ChildNames(Dom(c)) == Repeat("ItemContributorID", |c.ids|)
                                  + (if TruthyString(c.name) then ["ItemContributorName"] else [])
                                  + Repeat("ItemContributorAffiliation", |c.affiliations|)
                                  + Repeat("ItemContributorRole", |c.roles|)
  {
    var a, b := ItemContributorId.Doms(c.ids), OptionalLeaf("ItemContributorName", c.name);
    var d, e := ValueElements("ItemContributorAffiliation", c.affiliations), ValueElements("ItemContributorRole", c.roles);
    assert Dom(c).children == a + b + d + e;
    NamesAppend(a, b);
    NamesAppend(a + b, d);
    NamesAppend(a + b + d, e);
    ItemContributorId.DomsNames(c.ids);
    ValueElementsNames("ItemContributorAffiliation", c.affiliations);
    ValueElementsNames("ItemContributorRole", c.roles);
  }

  /** A contributor given only a name renders an empty ItemContributorAffiliation
      and an empty ItemContributorRole element after its name. */
  lemma NameOnlyRendersEmptyElements(env: Env, name: string)
    requires TruthyString(name)
    ensures var r := Build(env, RArr([Entry(StrKey("ItemContributorName"), RStr(name))]));
      r.Ok? && var x := Dom(r.value);
      ChildNames(x) == ["ItemContributorName", "ItemContributorAffiliation", "ItemContributorRole"]
      && x.children[1].children == [] && x.children[2].children == []
  {
    BuildFromNameOnly(env, name);
    DomOrder(ItemContributor([], name, [""], [""]));
  }

  /** asDOMDocument() as it runs: a loop over the identifiers, the name, then
      a loop over the affiliations and one over the roles. */
  method AsDOMDocument(c: ItemContributor) returns (x: Xml)
    ensures x == Dom(c)
  {
    var children := AppendAll([], ItemContributorId.Doms(c.ids));
    children := AppendOptionalLeaf(children, "ItemContributorName", c.name);
    children := AppendAll(children, ValueElements("ItemContributorAffiliation", c.affiliations));
    children := AppendAll(children, ValueElements("ItemContributorRole", c.roles));
    assert [] + ItemContributorId.Doms(c.ids) == ItemContributorId.Doms(c.ids);
    x := Element("", "ItemContributor", [], children);
  }

  /** The canonical input for a contributor. */
  function ToRaw(c: ItemContributor): Raw
  {
    RArr(Fields(ItemContributorId.ListToRaw(c.ids), RStr(c.name), ListOf(StrValues(c.affiliations)),
                ListOf(StrValues(c.roles))))
  }

  /** An input array with all four keys set, in the order ItemContributorID,
      ItemContributorName, ItemContributorAffiliation, ItemContributorRole. */
  function Fields(ids: Raw, name: Raw, affiliations: Raw, roles: Raw): seq<Entry>
  {
    [Entry(StrKey("ItemContributorID"), ids), Entry(StrKey("ItemContributorName"), name),
     Entry(StrKey("ItemContributorAffiliation"), affiliations), Entry(StrKey("ItemContributorRole"), roles)]
  }

  /** Each key of such an array reads its own value. */
  lemma FieldsLookup(ids: Raw, name: Raw, affiliations: Raw, roles: Raw)
    ensures var es := Fields(ids, name, affiliations, roles);
      Lookup(es, StrKey("ItemContributorID")) == Some(ids) && Lookup(es, StrKey("ItemContributorName")) == Some(name)
      && Lookup(es, StrKey("ItemContributorAffiliation")) == Some(affiliations)
      && Lookup(es, StrKey("ItemContributorRole")) == Some(roles)
  {
    var es := Fields(ids, name, affiliations, roles);
    assert DistinctKeys(es);
    LookupDistinct(es, 0);
    LookupDistinct(es, 1);
    LookupDistinct(es, 2);
    LookupDistinct(es, 3);
  }

  /** Where the fields of the canonical input are found. */
  lemma CanonicalFields(c: ItemContributor)
    ensures var es := ToRaw(c).entries;
      AnyFieldSet(es)
      && Coalesce(es, StrKey("ItemContributorID"), RArr([])) == ItemContributorId.ListToRaw(c.ids)
      && Coalesce(es, StrKey("ItemContributorName"), RStr("")) == RStr(c.name)
      && Coalesce(es, StrKey("ItemContributorAffiliation"), RStr("")) == ListOf(StrValues(c.affiliations))
      && Coalesce(es, StrKey("ItemContributorRole"), RStr("")) == ListOf(StrValues(c.roles))
  {
    FieldsLookup(ItemContributorId.ListToRaw(c.ids), RStr(c.name), ListOf(StrValues(c.affiliations)),
                 ListOf(StrValues(c.roles)));
  }


  /** The canonical input reaches the constructor with its identifiers built. */
  lemma BuildCanonical(env: Env, c: ItemContributor)
    requires forall i :: 0 <= i < |c.ids| ==> c.ids[i].idType in ContributorIdentifierTypes
    ensures Build(env, ToRaw(c)) == New(env, ListOf(ItemContributorId.AsObjects(c.ids)), RStr(c.name),
                                        ListOf(StrValues(c.affiliations)), ListOf(StrValues(c.roles)))
  {
    ItemContributorId.ListRoundTrip(c.ids);
    CanonicalFields(c);
  }

  /** Building from the canonical input gives back any contributor whose
      identifiers are of the listed types. */
  lemma RoundTrip(env: Env, c: ItemContributor)
    requires forall i :: 0 <= i < |c.ids| ==> c.ids[i].idType in ContributorIdentifierTypes
    ensures Build(env, ToRaw(c)) == Ok(c)
  {
    BuildCanonical(env, c);
    ItemContributorId.ListValidates(env, c.ids);
    StringListValidates(c.affiliations);
    StringListValidates(c.roles);
  }

  /** The trees of a list of contributors, in order. */
  function Doms(cs: seq<ItemContributor>): (xs: seq<Xml>)
    ensures |xs| == |cs| && forall i :: 0 <= i < |cs| ==> xs[i] == Dom(cs[i])
  {
    seq(|cs|, i requires 0 <= i < |cs| => Dom(cs[i]))
  }

  /** Every tree of a list of contributors is an ItemContributor element. */
  lemma DomsNames(cs: seq<ItemContributor>)
    ensures Names(Doms(cs)) == Repeat("ItemContributor", |cs|)
  {
  }

  /** A list of contributors as objects. */
  function AsNodes(cs: seq<ItemContributor>): (ns: seq<Node>)
    ensures |ns| == |cs| && forall i :: 0 <= i < |cs| ==> ns[i] == NItemContributor(cs[i])
  {
    seq(|cs|, i requires 0 <= i < |cs| => NItemContributor(cs[i]))
  }

  /** A list of contributors as loose values. */
  function AsObjects(cs: seq<ItemContributor>): (vs: seq<Raw>)
    ensures vs == ReportBuilder.Objects(AsNodes(cs))
  {
    ReportBuilder.Objects(AsNodes(cs))
  }

  /** A list of contributor objects passes the zero-or-more check and reads
      back as the same contributors. */
  lemma ListValidates(env: Env, cs: seq<ItemContributor>)
    ensures ZeroOrMoreItemContributors(env, ListOf(AsObjects(cs))) == Ok(cs)
  {
    ObjectsValidate(env, cs);
    var r := ZeroOrMoreItemContributors(env, ListOf(AsObjects(cs)));
    var xs := AsObjects(cs);
    assert r.value == cs by {
      assert forall i :: 0 <= i < |xs| ==> RObj(NItemContributor(r.value[i])) == xs[i] == RObj(NItemContributor(cs[i]));
    }
  }

  /** The objects pass the check unchanged. */
  lemma ObjectsValidate(env: Env, cs: seq<ItemContributor>)
    ensures ValidateZeroOrMoreOf(env, ListOf(AsObjects(cs)), "ItemContributor") == Ok(AsObjects(cs))
  {
    ClassNameSpellings("ItemContributor");
    BuiltListValidatesZeroOrMore(env, AsNodes(cs), "ItemContributor");
  }

  /** Whether every identifier of a contributor is of a listed type. */
  predicate IdsListed(c: ItemContributor)
  {
    forall i :: 0 <= i < |c.ids| ==> c.ids[i].idType in ContributorIdentifierTypes
  }

  /** The canonical inputs of a list of contributors. */
  function ListToRaw(cs: seq<ItemContributor>): Raw
  {
    ListOf(seq(|cs|, i requires 0 <= i < |cs| => ToRaw(cs[i])))
  }

  /** A list of canonical contributor inputs builds, through buildMultiple,
      to those contributors in order. */
  lemma ListRoundTrip(env: Env, cs: seq<ItemContributor>)
    requires forall i :: 0 <= i < |cs| ==> IdsListed(cs[i])
    ensures BuildMultiple(Builder(env), ListToRaw(cs)) == Ok(ListOf(AsObjects(cs)))
  {
    var raws := seq(|cs|, i requires 0 <= i < |cs| => ToRaw(cs[i]));
    forall i | 0 <= i < |raws| ensures Builder(env)(raws[i]) == Ok(AsNodes(cs)[i]) {
      RoundTrip(env, cs[i]);
    }
    BuildMultipleOfList(Builder(env), raws, AsNodes(cs));
  }
}
