/** COUNTER\ParentItem: the item a reported item belongs to, named and typed,
    with identifiers, contributors, dates, attributes and a publisher. */
module ParentItem {
  import opened Nodes
  import opened Php
  import opened Xml
  import opened ReportBuilder
  import ItemContributor
  import ItemDate

  const ClassName: string := "COUNTER\\ParentItem"

  /** __construct($itemName, $itemDataType, $itemIdentifiers = [],
      $itemContributors = [], $itemDates = [], $itemAttributes = [],
      $itemPublisher = ''): the name, data type and publisher must be strings
      (checked in that order), the data type one of getItemDataTypes(), and
      the four lists zero or more objects of their classes. */
  function New(env: Env, name: Raw, dataType: Raw, identifiers: Raw, contributors: Raw,
               dates: Raw, attributes: Raw, publisher: Raw): (r: Result<ParentItem>)
    ensures r.Ok? <==> name.RStr? && dataType.RStr? && publisher.RStr? && dataType.s in ItemDataTypes
                       && ZeroOrMoreOpaques(env, identifiers, IdentifierKind).Ok?
                       && ZeroOrMoreItemContributors(env, contributors).Ok?
                       && ZeroOrMoreItemDates(env, dates).Ok?
                       && ZeroOrMoreOpaques(env, attributes, ItemAttributeKind).Ok?
    ensures r.Ok? ==> r.value.name == name.s && r.value.dataType == dataType.s && r.value.publisher == publisher.s
    ensures r.Ok? ==> Ok(r.value.identifiers) == ZeroOrMoreOpaques(env, identifiers, IdentifierKind)
                      && Ok(r.value.contributors) == ZeroOrMoreItemContributors(env, contributors)
                      && Ok(r.value.dates) == ZeroOrMoreItemDates(env, dates)
                      && Ok(r.value.attributes) == ZeroOrMoreOpaques(env, attributes, ItemAttributeKind)
    ensures name.RStr? && dataType.RStr? && publisher.RStr? && dataType.s !in ItemDataTypes ==>
      r == Err(InvalidType(dataType.s))
  {
    var n :- ValidateString(name);
    var t :- ValidateString(dataType);
    var p :- ValidateString(publisher);
    if t !in ItemDataTypes then Err(InvalidType(t))
    else
      var ids :- ZeroOrMoreOpaques(env, identifiers, IdentifierKind);
      var cs :- ZeroOrMoreItemContributors(env, contributors);
      var ds :- ZeroOrMoreItemDates(env, dates);
      var ats :- ZeroOrMoreOpaques(env, attributes, ItemAttributeKind);
      Ok(ParentItem(ids, cs, ds, ats, p, n, t))
  }

  /** build($array): an array with ItemName and ItemDataType set; the lists
      default to [] and the publisher to ''. */
  function Build(env: Env, data: Raw): (r: Result<ParentItem>)
    ensures !data.RArr? ==> r == Err(BuildFailed(ClassName, data))
    ensures data.RArr? && !(Isset(data.entries, StrKey("ItemName")) && Isset(data.entries, StrKey("ItemDataType"))) ==>
      r == Err(BuildFailed(ClassName, data))
    ensures r.Ok? ==> r.value.dataType in ItemDataTypes
  {
    match data
    case RArr(es) =>
      if Isset(es, StrKey("ItemName")) && Isset(es, StrKey("ItemDataType")) then
        var ids :- BuildMultiple(OpaqueBuilder(env, IdentifierKind), Coalesce(es, StrKey("ItemIdentifier"), RArr([])));
        var contributors :- BuildMultiple(ItemContributor.Builder(env), Coalesce(es, StrKey("ItemContributor"), RArr([])));
        var dates :- BuildMultiple(ItemDate.Builder(env), Coalesce(es, StrKey("ItemDate"), RArr([])));
        var attributes :- BuildMultiple(OpaqueBuilder(env, ItemAttributeKind), Coalesce(es, StrKey("ItemAttribute"), RArr([])));
        New(env, Get(es, StrKey("ItemName")), Get(es, StrKey("ItemDataType")), ids, contributors, dates, attributes,
            Coalesce(es, StrKey("ItemPublisher"), RStr("")))
      else BuildFailure(ClassName, data)
    case _ => BuildFailure(ClassName, data)
  }

  /** With only ItemName and ItemDataType given, the lists are empty and the
      publisher is ''; the data type must be one of the seven item data types. */
  lemma BuildFromNameAndType(env: Env, name: string, dataType: string)
    ensures var r := Build(env, RArr([Entry(StrKey("ItemName"), RStr(name)), Entry(StrKey("ItemDataType"), RStr(dataType))]));
      (dataType in ItemDataTypes ==> r == Ok(ParentItem([], [], [], [], "", name, dataType)))
      && (dataType !in ItemDataTypes ==> r == Err(InvalidType(dataType)))
  {
    NameAndTypeLookup(RStr(name), RStr(dataType));
  }

  /** An array holding only ItemName and ItemDataType reads those two and
      nothing else. */
  lemma NameAndTypeLookup(name: Raw, dataType: Raw)
    ensures var es := [Entry(StrKey("ItemName"), name), Entry(StrKey("ItemDataType"), dataType)];
      Lookup(es, StrKey("ItemName")) == Some(name) && Lookup(es, StrKey("ItemDataType")) == Some(dataType)
      && Lookup(es, StrKey("ItemIdentifier")) == None && Lookup(es, StrKey("ItemContributor")) == None
      && Lookup(es, StrKey("ItemDate")) == None && Lookup(es, StrKey("ItemAttribute")) == None
      && Lookup(es, StrKey("ItemPublisher")) == None
  {
    var es := [Entry(StrKey("ItemName"), name), Entry(StrKey("ItemDataType"), dataType)];
    LookupFirst(es, StrKey("ItemDataType"), 1);
    LookupMissing(es, StrKey("ItemIdentifier"));
    LookupMissing(es, StrKey("ItemContributor"));
    LookupMissing(es, StrKey("ItemDate"));
    LookupMissing(es, StrKey("ItemAttribute"));
    LookupMissing(es, StrKey("ItemPublisher"));
  }

  /** The item data types are exactly Journal, Database, Platform, Book,
      Collection, Multimedia and Article. */
  lemma ItemDataTypesListed(t: string)
    ensures t in ItemDataTypes <==> t in {"Journal", "Database", "Platform", "Book", "Collection", "Multimedia", "Article"}
  {
  }

  /** asDOMDocument(): the identifiers, contributors, dates and attributes in
      order, the publisher if set, then ItemName and ItemDataType. */
  function Dom(p: ParentItem): (x: Xml)
    ensures x.Element? && x.name == "ParentItem" && x.attrs == []
    ensures |x.children| >= 2 && x.children[|x.children| - 2] == Leaf("ItemName", p.name)
            && x.children[|x.children| - 1] == Leaf("ItemDataType", p.dataType)
  {
    Element("", "ParentItem", [],
      OpaqueDoms(p.identifiers) + ItemContributor.Doms(p.contributors) + ItemDate.Doms(p.dates)
      + OpaqueDoms(p.attributes) + OptionalLeaf("ItemPublisher", p.publisher)
      + [Leaf("ItemName", p.name), Leaf("ItemDataType", p.dataType)])
  }

  /** The children come in the schema's order: the four lists, ItemPublisher
      only when set, and ItemName and ItemDataType always, last. */
  lemma DomOrder(p: ParentItem)
    ensures ChildNames(Dom(p)) == Names(OpaqueDoms(p.identifiers)) + Repeat("ItemContributor", |p.contributors|)
                                  + Repeat("ItemDate", |p.dates|) + Names(OpaqueDoms(p.attributes))
                                  + (if TruthyString(p.publisher) then ["ItemPublisher"] else [])
                                  + ["ItemName", "ItemDataType"]
  {
    var a, b, c := OpaqueDoms(p.identifiers), ItemContributor.Doms(p.contributors), ItemDate.Doms(p.dates);
    var d, e, f := OpaqueDoms(p.attributes), OptionalLeaf("ItemPublisher", p.publisher),
                   [Leaf("ItemName", p.name), Leaf("ItemDataType", p.dataType)];
    assert Dom(p).children == a + b + c + d + e + f;
    assert ChildNames(Dom(p)) == Names(a + b + c + d + e + f);
    NamesAppend(a, b);
    NamesAppend(a + b, c);
    NamesAppend(a + b + c, d);
    NamesAppend(a + b + c + d, e);
    NamesAppend(a + b + c + d + e, f);
    ItemContributor.DomsNames(p.contributors);
    ItemDate.DomsNames(p.dates);
  }

  /** asDOMDocument() as it runs: four loops appending the list members'
      trees, then the publisher, name and data type leaves. */
  method AsDOMDocument(p: ParentItem) returns (x: Xml)
    ensures x == Dom(p)
  {
    var children := AppendAll([], OpaqueDoms(p.identifiers));
    children := AppendAll(children, ItemContributor.Doms(p.contributors));
    children := AppendAll(children, ItemDate.Doms(p.dates));
    children := AppendAll(children, OpaqueDoms(p.attributes));
    children := AppendOptionalLeaf(children, "ItemPublisher", p.publisher);
    children := children + [Leaf("ItemName", p.name)];
    children := children + [Leaf("ItemDataType", p.dataType)];
    assert [] + OpaqueDoms(p.identifiers) == OpaqueDoms(p.identifiers);
    x := Element("", "ParentItem", [], children);
  }

  /** The canonical input for a parent item, given the inputs its identifiers
      and attributes were built from. */
  function ToRaw(p: ParentItem, idInputs: seq<Raw>, attrInputs: seq<Raw>): Raw
  {
    RArr(Fields(RStr(p.name), RStr(p.dataType), ListOf(idInputs), ItemContributor.ListToRaw(p.contributors),
                ItemDate.ListToRaw(p.dates), ListOf(attrInputs), RStr(p.publisher)))
  }

  /** An input array with all seven keys set, in the order ItemName,
      ItemDataType, ItemIdentifier, ItemContributor, ItemDate, ItemAttribute,
      ItemPublisher. */
  function Fields(name: Raw, dataType: Raw, ids: Raw, contributors: Raw, dates: Raw, attributes: Raw,
                  publisher: Raw): seq<Entry>
  {
    [Entry(StrKey("ItemName"), name), Entry(StrKey("ItemDataType"), dataType),
     Entry(StrKey("ItemIdentifier"), ids), Entry(StrKey("ItemContributor"), contributors),
     Entry(StrKey("ItemDate"), dates), Entry(StrKey("ItemAttribute"), attributes),
     Entry(StrKey("ItemPublisher"), publisher)]
  }

  /** Each key of such an array reads its own value. */
  lemma FieldsLookup(name: Raw, dataType: Raw, ids: Raw, contributors: Raw, dates: Raw, attributes: Raw,
                     publisher: Raw)
    ensures var es := Fields(name, dataType, ids, contributors, dates, attributes, publisher);
      Lookup(es, StrKey("ItemName")) == Some(name) && Lookup(es, StrKey("ItemDataType")) == Some(dataType)
      && Lookup(es, StrKey("ItemIdentifier")) == Some(ids)
      && Lookup(es, StrKey("ItemContributor")) == Some(contributors)
      && Lookup(es, StrKey("ItemDate")) == Some(dates) && Lookup(es, StrKey("ItemAttribute")) == Some(attributes)
      && Lookup(es, StrKey("ItemPublisher")) == Some(publisher)
  {
    var es := Fields(name, dataType, ids, contributors, dates, attributes, publisher);
    assert DistinctKeys(es);
    LookupDistinct(es, 0);
    LookupDistinct(es, 1);
    LookupDistinct(es, 2);
    LookupDistinct(es, 3);
    LookupDistinct(es, 4);
    LookupDistinct(es, 5);
    LookupDistinct(es, 6);
  }

  /** Where the scalar fields of the canonical input are found. */
  lemma CanonicalScalars(p: ParentItem, idInputs: seq<Raw>, attrInputs: seq<Raw>)
    ensures var es := ToRaw(p, idInputs, attrInputs).entries;
      Isset(es, StrKey("ItemName")) && Get(es, StrKey("ItemName")) == RStr(p.name)
      && Isset(es, StrKey("ItemDataType")) && Get(es, StrKey("ItemDataType")) == RStr(p.dataType)
      && Coalesce(es, StrKey("ItemPublisher"), RStr("")) == RStr(p.publisher)
  {
    FieldsLookup(RStr(p.name), RStr(p.dataType), ListOf(idInputs), ItemContributor.ListToRaw(p.contributors),
                 ItemDate.ListToRaw(p.dates), ListOf(attrInputs), RStr(p.publisher));
  }

  /** Where the list fields of the canonical input are found. */
  lemma CanonicalLists(p: ParentItem, idInputs: seq<Raw>, attrInputs: seq<Raw>)
    ensures var es := ToRaw(p, idInputs, attrInputs).entries;
      Coalesce(es, StrKey("ItemIdentifier"), RArr([])) == ListOf(idInputs)
      && Coalesce(es, StrKey("ItemContributor"), RArr([])) == ItemContributor.ListToRaw(p.contributors)
      && Coalesce(es, StrKey("ItemDate"), RArr([])) == ItemDate.ListToRaw(p.dates)
      && Coalesce(es, StrKey("ItemAttribute"), RArr([])) == ListOf(attrInputs)
  {
    FieldsLookup(RStr(p.name), RStr(p.dataType), ListOf(idInputs), ItemContributor.ListToRaw(p.contributors),
                 ItemDate.ListToRaw(p.dates), ListOf(attrInputs), RStr(p.publisher));
  }

  /** What a round trip needs of a parent item: listed enumerated values,
      identifiers and attributes of their classes, and inputs the environment
      builds to those identifiers and attributes. */
  predicate Rebuildable(env: Env, p: ParentItem, idInputs: seq<Raw>, attrInputs: seq<Raw>)
  {
    p.dataType in ItemDataTypes
    && (forall i :: 0 <= i < |p.contributors| ==> ItemContributor.IdsListed(p.contributors[i]))
    && (forall i :: 0 <= i < |p.dates| ==> p.dates[i].dateType in DateTypes)
    && |idInputs| == |p.identifiers| && |attrInputs| == |p.attributes|
    && (forall i :: 0 <= i < |p.identifiers| ==>
          p.identifiers[i].kind == IdentifierKind && env.buildOpaque(IdentifierKind, idInputs[i]) == Ok(p.identifiers[i].dom))
    && (forall i :: 0 <= i < |p.attributes| ==>
          p.attributes[i].kind == ItemAttributeKind && env.buildOpaque(ItemAttributeKind, attrInputs[i]) == Ok(p.attributes[i].dom))
  }

  /** The canonical input reaches the constructor with its lists built. */
  lemma BuildCanonical(env: Env, p: ParentItem, idInputs: seq<Raw>, attrInputs: seq<Raw>)
    requires Rebuildable(env, p, idInputs, attrInputs)
    ensures Build(env, ToRaw(p, idInputs, attrInputs)) ==
      New(env, RStr(p.name), RStr(p.dataType), ListOf(Objects(OpaqueNodes(p.identifiers))),
          ListOf(ItemContributor.AsObjects(p.contributors)), ListOf(ItemDate.AsObjects(p.dates)),
          ListOf(Objects(OpaqueNodes(p.attributes))), RStr(p.publisher))
  {
    CanonicalScalars(p, idInputs, attrInputs);
    CanonicalLists(p, idInputs, attrInputs);
    OpaqueListBuilds(env, idInputs, p.identifiers, IdentifierKind);
    ItemContributor.ListRoundTrip(env, p.contributors);
    ItemDate.ListRoundTrip(env, p.dates);
    OpaqueListBuilds(env, attrInputs, p.attributes, ItemAttributeKind);
  }

  /** Building from the canonical input gives back the parent item. */
  lemma RoundTrip(env: Env, p: ParentItem, idInputs: seq<Raw>, attrInputs: seq<Raw>)
    requires Rebuildable(env, p, idInputs, attrInputs)
    ensures Build(env, ToRaw(p, idInputs, attrInputs)) == Ok(p)
  {
    BuildCanonical(env, p, idInputs, attrInputs);
    OpaqueListValidates(env, p.identifiers, IdentifierKind);
    OpaqueListValidates(env, p.attributes, ItemAttributeKind);
    ItemContributor.ListValidates(env, p.contributors);
    ItemDate.ListValidates(env, p.dates);
  }
}
