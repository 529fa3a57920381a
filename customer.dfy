/** COUNTER\Customer: a customer identified by its ID, with the report items
    counted for it and optional name, contacts, web site, logo, consortium
    and institutional identifiers. */
module Customer {
  import opened Nodes
  import opened Php
  import opened Xml
  import opened ReportBuilder
  import Contact
  import Consortium

  const ClassName: string := "COUNTER\\Customer"

  /** __construct($id, $reportItems, $name = '', $contacts = [], $webSiteUrl = '',
      $logoUrl = '', $consortium = null, $institutionalIdentifier = []): the
      four scalars must be strings (checked in the order id, name, webSiteUrl,
      logoUrl), then the report items one or more ReportItems objects, the
      contacts zero or more Contact objects, the consortium zero or one
      Consortium object and the identifiers zero or more Identifier objects. */
  function New(env: Env, id: Raw, reportItems: Raw, name: Raw, contacts: Raw, webSiteUrl: Raw,
               logoUrl: Raw, consortium: Raw, identifiers: Raw): (r: Result<Customer>)
    ensures r.Ok? <==> id.RStr? && name.RStr? && webSiteUrl.RStr? && logoUrl.RStr?
                       && OneOrMoreOpaques(env, reportItems, ReportItemsKind).Ok?
                       && ZeroOrMoreContacts(env, contacts).Ok?
                       && ZeroOrOneConsortium(env, consortium).Ok?
                       && ZeroOrMoreOpaques(env, identifiers, IdentifierKind).Ok?
    ensures r.Ok? ==> r.value.id == id.s && r.value.name == name.s
                      && r.value.webSiteUrl == webSiteUrl.s && r.value.logoUrl == logoUrl.s
    ensures r.Ok? ==> Ok(r.value.reportItems) == OneOrMoreOpaques(env, reportItems, ReportItemsKind)
                      && Ok(r.value.contacts) == ZeroOrMoreContacts(env, contacts)
                      && Ok(r.value.consortium) == ZeroOrOneConsortium(env, consortium)
                      && Ok(r.value.institutionalIdentifiers) == ZeroOrMoreOpaques(env, identifiers, IdentifierKind)
    ensures !id.RStr? ==> r == Err(InvalidString(GetType(id)))
    ensures id.RStr? && name.RStr? && webSiteUrl.RStr? && logoUrl.RStr? && reportItems.RNull? ==>
      r == Err(InvalidObject(Counter("ReportItems")))
  {
    var i :- ValidateString(id);
    var n :- ValidateString(name);
    var w :- ValidateString(webSiteUrl);
    var l :- ValidateString(logoUrl);
    var items :- OneOrMoreOpaques(env, reportItems, ReportItemsKind);
    var cs :- ZeroOrMoreContacts(env, contacts);
    var co :- ZeroOrOneConsortium(env, consortium);
    var ids :- ZeroOrMoreOpaques(env, identifiers, IdentifierKind);
    Ok(Customer(n, i, cs, w, l, co, ids, items))
  }

  /** `isset($array['Consortium']) ? Consortium::build(..) : null`. */
  function BuildConsortium(es: seq<Entry>): (r: Result<Raw>)
    ensures !Isset(es, StrKey("Consortium")) ==> r == Ok(RNull)
    ensures Isset(es, StrKey("Consortium")) ==>
      (r.Ok? <==> Consortium.Build(Get(es, StrKey("Consortium"))).Ok?)
      && (r.Ok? ==> r.value == RObj(NConsortium(Consortium.Build(Get(es, StrKey("Consortium"))).value)))
  {
    if Isset(es, StrKey("Consortium")) then
      var c :- Consortium.Build(Get(es, StrKey("Consortium")));
      Ok(RObj(NConsortium(c)))
    else Ok(RNull)
  }

  /** build($array): an array with ID and ReportItems set. The report items,
      the identifiers and the contacts are built first, then the consortium,
      then the constructor runs. */
  function Build(env: Env, data: Raw): (r: Result<Customer>)
    ensures !data.RArr? ==> r == Err(BuildFailed(ClassName, data))
    ensures data.RArr? && !(Isset(data.entries, StrKey("ID")) && Isset(data.entries, StrKey("ReportItems"))) ==>
      r == Err(BuildFailed(ClassName, data))
  {
    match data
    case RArr(es) =>
      if Isset(es, StrKey("ID")) && Isset(es, StrKey("ReportItems")) then
        var items :- BuildMultiple(OpaqueBuilder(env, ReportItemsKind), Get(es, StrKey("ReportItems")));
        var ids :- BuildMultiple(OpaqueBuilder(env, IdentifierKind), Coalesce(es, StrKey("InstitutionalIdentifier"), RArr([])));
        var contacts :- BuildMultiple(Contact.Builder(env), Coalesce(es, StrKey("Contact"), RArr([])));
        var consortium :- BuildConsortium(es);
        New(env, Get(es, StrKey("ID")), items, Coalesce(es, StrKey("Name"), RStr("")), contacts,
            Coalesce(es, StrKey("WebSiteUrl"), RStr("")), Coalesce(es, StrKey("LogoUrl"), RStr("")),
            consortium, ids)
      else BuildFailure(ClassName, data)
    case _ => BuildFailure(ClassName, data)
  }

  /** Customer::build as a builder of objects. */
  function Builder(env: Env): Raw -> Result<Node>
  {
    (v: Raw) => match Build(env, v)
                case Ok(x) => Ok(NCustomer(x))
                case Err(e) => Err(e)
  }

  /** An empty ReportItems list is accepted: validateOneOrMoreOf() lets an
      empty array through, so a customer with an ID and no report items builds. */
  lemma BuildWithNoReportItems(env: Env, id: string)
    ensures Build(env, RArr([Entry(StrKey("ID"), RStr(id)), Entry(StrKey("ReportItems"), RArr([]))]))
            == Ok(Customer("", id, [], "", "", None, [], []))
  {
    var es := [Entry(StrKey("ID"), RStr(id)), Entry(StrKey("ReportItems"), RArr([]))];
    assert Get(es, StrKey("ID")) == RStr(id);
    LookupFirst(es, StrKey("ReportItems"), 1);
    LookupMissing(es, StrKey("InstitutionalIdentifier"));
    LookupMissing(es, StrKey("Contact"));
    LookupMissing(es, StrKey("Consortium"));
    LookupMissing(es, StrKey("Name"));
    LookupMissing(es, StrKey("WebSiteUrl"));
    LookupMissing(es, StrKey("LogoUrl"));
    assert Values(RArr([]).entries) == [];
  }

  /** A consortium given as a bare string is its well-known name. */
  lemma BuildConsortiumFromString(es: seq<Entry>, name: string)
    requires Lookup(es, StrKey("Consortium")) == Some(RStr(name))
    ensures BuildConsortium(es) == Ok(RObj(NConsortium(Nodes.Consortium("", name))))
  {
  }

  /** asDOMDocument(): the customer's own fields, then the identifiers, then
      the report items. */
  function Dom(c: Customer): (x: Xml)
    ensures x.Element? && x.name == "Customer" && x.attrs == []
    ensures Leaf("ID", c.id) in x.children
  {
    assert Head(c)[|OptionalLeaf("Name", c.name)|] == Leaf("ID", c.id);
    Element("", "Customer", [], Head(c) + OpaqueDoms(c.institutionalIdentifiers) + OpaqueDoms(c.reportItems))
  }

  /** The customer's own fields as children: Name if set, ID, the contacts,
      WebSiteUrl and LogoUrl if set, and the consortium if present. */
  function Head(c: Customer): seq<Xml>
  {
    OptionalLeaf("Name", c.name) + [Leaf("ID", c.id)] + Contact.Doms(c.contacts)
    + OptionalLeaf("WebSiteUrl", c.webSiteUrl) + OptionalLeaf("LogoUrl", c.logoUrl)
    + ConsortiumDoms(c.consortium)
  }

  /** The consortium's tree, when there is one. */
  function ConsortiumDoms(co: Option<Nodes.Consortium>): (xs: seq<Xml>)
    ensures |xs| == (if co.Some? then 1 else 0)
    ensures co.Some? ==> xs == [Consortium.Dom(co.value)]
  {
    if co.Some? then [Consortium.Dom(co.value)] else []
  }

  /** The customer's own fields come in the schema's order. */
  lemma HeadOrder(c: Customer)
    ensures Names(Head(c)) == (if TruthyString(c.name) then ["Name"] else []) + ["ID"]
                              + Repeat("Contact", |c.contacts|)
                              + (if TruthyString(c.webSiteUrl) then ["WebSiteUrl"] else [])
                              + (if TruthyString(c.logoUrl) then ["LogoUrl"] else [])
                              + (if c.consortium.Some? then ["Consortium"] else [])
  {
    HeadNames(c);
    LeafNames("ID", c.id);
    OptionalLeafNames("Name", c.name);
    OptionalLeafNames("WebSiteUrl", c.webSiteUrl);
    OptionalLeafNames("LogoUrl", c.logoUrl);
    Contact.DomsNames(c.contacts);
    assert Names(ConsortiumDoms(c.consortium)) == if c.consortium.Some? then ["Consortium"] else [];
  }

  /** The names of the customer's own fields, part by part. */
  lemma HeadNames(c: Customer)
    ensures Names(Head(c)) == Names(OptionalLeaf("Name", c.name)) + Names([Leaf("ID", c.id)]) + Names(Contact.Doms(c.contacts))
                              + Names(OptionalLeaf("WebSiteUrl", c.webSiteUrl))
                              + Names(OptionalLeaf("LogoUrl", c.logoUrl)) + Names(ConsortiumDoms(c.consortium))
  {
    var a, b, d := OptionalLeaf("Name", c.name), [Leaf("ID", c.id)], Contact.Doms(c.contacts);
    var e, f, g := OptionalLeaf("WebSiteUrl", c.webSiteUrl), OptionalLeaf("LogoUrl", c.logoUrl), ConsortiumDoms(c.consortium);
    NamesAppend(a, b);
    NamesAppend(a + b, d);
    NamesAppend(a + b + d, e);
    NamesAppend(a + b + d + e, f);
    NamesAppend(a + b + d + e + f, g);
  }

  /** The children come in the schema's order, with the identifiers after the
      customer's own fields and the report items last. */
  lemma DomOrder(c: Customer)
    ensures ChildNames(Dom(c)) == (if TruthyString(c.name) then ["Name"] else []) + ["ID"]
                                  + Repeat("Contact", |c.contacts|)
                                  + (if TruthyString(c.webSiteUrl) then ["WebSiteUrl"] else [])
                                  + (if TruthyString(c.logoUrl) then ["LogoUrl"] else [])
                                  + (if c.consortium.Some? then ["Consortium"] else [])
                                  + Names(OpaqueDoms(c.institutionalIdentifiers))
                                  + Names(OpaqueDoms(c.reportItems))
  {
    var h, k := OpaqueDoms(c.institutionalIdentifiers), OpaqueDoms(c.reportItems);
    assert ChildNames(Dom(c)) == Names(Head(c) + h + k);
    NamesAppend(Head(c), h);
    NamesAppend(Head(c) + h, k);
    HeadOrder(c);
  }

  /** The report items are the last children, in order. */
  lemma DomEndsWithReportItems(c: Customer)
    ensures var cs := Dom(c).children;
      |cs| >= |c.reportItems| && cs[|cs| - |c.reportItems|..] == OpaqueDoms(c.reportItems)
  {
    var cs := Dom(c).children;
    var p := Head(c) + OpaqueDoms(c.institutionalIdentifiers);
    assert cs == p + OpaqueDoms(c.reportItems);
    assert cs[|p|..] == OpaqueDoms(c.reportItems);
  }

  /** asDOMDocument() as it runs: the leaves and the consortium in order, and
      a loop each for the contacts, the identifiers and the report items. */
  method AsDOMDocument(c: Customer) returns (x: Xml)
    ensures x == Dom(c)
  {
    var children := AppendOptionalLeaf([], "Name", c.name);
    children := children + [Leaf("ID", c.id)];
    children := AppendAll(children, Contact.Doms(c.contacts));
    children := AppendOptionalLeaf(children, "WebSiteUrl", c.webSiteUrl);
    children := AppendOptionalLeaf(children, "LogoUrl", c.logoUrl);
    if c.consortium.Some? {
      children := children + [Consortium.Dom(c.consortium.value)];
    }
    assert [] + OptionalLeaf("Name", c.name) == OptionalLeaf("Name", c.name);
    assert children == Head(c);
    children := AppendAll(children, OpaqueDoms(c.institutionalIdentifiers));
    children := AppendAll(children, OpaqueDoms(c.reportItems));
    x := Element("", "Customer", [], children);
  }

  /** The canonical input for a customer, given the inputs its report items
      and identifiers were built from; a null Consortium when there is none. */
  function ToRaw(c: Customer, itemInputs: seq<Raw>, idInputs: seq<Raw>): Raw
  {
    RArr(Fields(RStr(c.id), ListOf(itemInputs), RStr(c.name), Contact.ListToRaw(c.contacts),
                RStr(c.webSiteUrl), RStr(c.logoUrl), ListOf(idInputs), ConsortiumToRaw(c.consortium)))
  }

  /** The canonical input for an optional consortium. */
  function ConsortiumToRaw(co: Option<Nodes.Consortium>): Raw
  {
    if co.Some? then Consortium.ToRaw(co.value) else RNull
  }

  /** An input array with all eight keys set, in the order ID, ReportItems,
      Name, Contact, WebSiteUrl, LogoUrl, InstitutionalIdentifier, Consortium. */
  function Fields(id: Raw, items: Raw, name: Raw, contacts: Raw, webSiteUrl: Raw, logoUrl: Raw, ids: Raw,
                  consortium: Raw): seq<Entry>
  {
    [Entry(StrKey("ID"), id), Entry(StrKey("ReportItems"), items), Entry(StrKey("Name"), name),
     Entry(StrKey("Contact"), contacts), Entry(StrKey("WebSiteUrl"), webSiteUrl), Entry(StrKey("LogoUrl"), logoUrl),
     Entry(StrKey("InstitutionalIdentifier"), ids), Entry(StrKey("Consortium"), consortium)]
  }

  /** Each key of such an array reads its own value. */
  lemma FieldsLookup(id: Raw, items: Raw, name: Raw, contacts: Raw, webSiteUrl: Raw, logoUrl: Raw, ids: Raw,
                     consortium: Raw)
    ensures var es := Fields(id, items, name, contacts, webSiteUrl, logoUrl, ids, consortium);
      Lookup(es, StrKey("ID")) == Some(id) && Lookup(es, StrKey("ReportItems")) == Some(items)
      && Lookup(es, StrKey("Name")) == Some(name) && Lookup(es, StrKey("Contact")) == Some(contacts)
      && Lookup(es, StrKey("WebSiteUrl")) == Some(webSiteUrl) && Lookup(es, StrKey("LogoUrl")) == Some(logoUrl)
      && Lookup(es, StrKey("InstitutionalIdentifier")) == Some(ids)
      && Lookup(es, StrKey("Consortium")) == Some(consortium)
  {
    var es := Fields(id, items, name, contacts, webSiteUrl, logoUrl, ids, consortium);
    assert DistinctKeys(es);
    LookupDistinct(es, 0);
    LookupDistinct(es, 1);
    LookupDistinct(es, 2);
    LookupDistinct(es, 3);
    LookupDistinct(es, 4);
    LookupDistinct(es, 5);
    LookupDistinct(es, 6);
    LookupDistinct(es, 7);
  }

  /** Where the fields of the canonical input are found. */
  lemma CanonicalLookup(c: Customer, itemInputs: seq<Raw>, idInputs: seq<Raw>)
    ensures var es := ToRaw(c, itemInputs, idInputs).entries;
      Lookup(es, StrKey("ID")) == Some(RStr(c.id)) && Lookup(es, StrKey("ReportItems")) == Some(ListOf(itemInputs))
      && Lookup(es, StrKey("Name")) == Some(RStr(c.name))
      && Lookup(es, StrKey("Contact")) == Some(Contact.ListToRaw(c.contacts))
      && Lookup(es, StrKey("WebSiteUrl")) == Some(RStr(c.webSiteUrl))
      && Lookup(es, StrKey("LogoUrl")) == Some(RStr(c.logoUrl))
      && Lookup(es, StrKey("InstitutionalIdentifier")) == Some(ListOf(idInputs))
      && Lookup(es, StrKey("Consortium")) == Some(ConsortiumToRaw(c.consortium))
  {
    FieldsLookup(RStr(c.id), ListOf(itemInputs), RStr(c.name), Contact.ListToRaw(c.contacts),
                 RStr(c.webSiteUrl), RStr(c.logoUrl), ListOf(idInputs), ConsortiumToRaw(c.consortium));
  }

  /** Where the scalar fields of the canonical input are found. */
  lemma CanonicalScalars(c: Customer, itemInputs: seq<Raw>, idInputs: seq<Raw>)
    ensures var es := ToRaw(c, itemInputs, idInputs).entries;
      Isset(es, StrKey("ID")) && Get(es, StrKey("ID")) == RStr(c.id)
      && Coalesce(es, StrKey("Name"), RStr("")) == RStr(c.name)
      && Coalesce(es, StrKey("WebSiteUrl"), RStr("")) == RStr(c.webSiteUrl)
      && Coalesce(es, StrKey("LogoUrl"), RStr("")) == RStr(c.logoUrl)
  {
    CanonicalLookup(c, itemInputs, idInputs);
  }

  /** Where the list fields of the canonical input are found. */
  lemma CanonicalLists(c: Customer, itemInputs: seq<Raw>, idInputs: seq<Raw>)
    ensures var es := ToRaw(c, itemInputs, idInputs).entries;
      Isset(es, StrKey("ReportItems")) && Get(es, StrKey("ReportItems")) == ListOf(itemInputs)
      && Coalesce(es, StrKey("Contact"), RArr([])) == Contact.ListToRaw(c.contacts)
      && Coalesce(es, StrKey("InstitutionalIdentifier"), RArr([])) == ListOf(idInputs)
  {
    CanonicalLookup(c, itemInputs, idInputs);
  }

  /** The consortium of the canonical input builds to the normalised consortium. */
  lemma CanonicalConsortium(c: Customer, itemInputs: seq<Raw>, idInputs: seq<Raw>)
    ensures BuildConsortium(ToRaw(c, itemInputs, idInputs).entries) ==
      if c.consortium.Some? then Ok(RObj(NConsortium(Consortium.Normalised(c.consortium.value)))) else Ok(RNull)
  {
    CanonicalLookup(c, itemInputs, idInputs);
    if c.consortium.Some? {
      Consortium.RoundTrip(c.consortium.value);
    }
  }


  /** What a round trip needs of a customer: report items and identifiers of
      their classes, and inputs the environment builds to them. */
  predicate Rebuildable(env: Env, c: Customer, itemInputs: seq<Raw>, idInputs: seq<Raw>)
  {
    |itemInputs| == |c.reportItems| && |idInputs| == |c.institutionalIdentifiers|
    && (forall i :: 0 <= i < |c.reportItems| ==>
          c.reportItems[i].kind == ReportItemsKind && env.buildOpaque(ReportItemsKind, itemInputs[i]) == Ok(c.reportItems[i].dom))
    && (forall i :: 0 <= i < |c.institutionalIdentifiers| ==>
          c.institutionalIdentifiers[i].kind == IdentifierKind
          && env.buildOpaque(IdentifierKind, idInputs[i]) == Ok(c.institutionalIdentifiers[i].dom))
  }

  /** The customer that building from its canonical input gives: "0" contact
      fields and a "0" consortium code read back as ''. */
  function Normalised(c: Customer): (n: Customer)
    ensures n.id == c.id && n.name == c.name && n.reportItems == c.reportItems
            && n.institutionalIdentifiers == c.institutionalIdentifiers
  {
    c.(contacts := Contact.Normalised(c.contacts),
       consortium := if c.consortium.Some? then Some(Consortium.Normalised(c.consortium.value)) else None)
  }

  /** The canonical input reaches the constructor with its lists and its
      consortium built. */
  lemma BuildCanonical(env: Env, c: Customer, itemInputs: seq<Raw>, idInputs: seq<Raw>)
    requires Rebuildable(env, c, itemInputs, idInputs)
    ensures Build(env, ToRaw(c, itemInputs, idInputs)) ==
      New(env, RStr(c.id), ListOf(Objects(OpaqueNodes(c.reportItems))), RStr(c.name),
          ListOf(Contact.AsObjects(Contact.Normalised(c.contacts))), RStr(c.webSiteUrl), RStr(c.logoUrl),
          if c.consortium.Some? then RObj(NConsortium(Consortium.Normalised(c.consortium.value))) else RNull,
          ListOf(Objects(OpaqueNodes(c.institutionalIdentifiers))))
  {
    CanonicalScalars(c, itemInputs, idInputs);
    CanonicalLists(c, itemInputs, idInputs);
    CanonicalConsortium(c, itemInputs, idInputs);
    OpaqueListBuilds(env, itemInputs, c.reportItems, ReportItemsKind);
    OpaqueListBuilds(env, idInputs, c.institutionalIdentifiers, IdentifierKind);
    Contact.ListBuilds(env, c.contacts);
  }

  /** A normalised consortium passes the zero-or-one check as itself. */
  lemma ConsortiumValidates(env: Env, co: Option<Nodes.Consortium>)
    ensures ZeroOrOneConsortium(env, if co.Some? then RObj(NConsortium(co.value)) else RNull) == Ok(co)
  {
    ClassNameSpellings("Consortium");
  }

  /** The normalised contacts pass the zero-or-more check as themselves. */
  lemma ContactsValidate(env: Env, cs: seq<Nodes.Contact>)
    ensures ZeroOrMoreContacts(env, ListOf(Contact.AsObjects(cs))) == Ok(cs)
  {
    Contact.ListValidates(env, cs);
  }

  /** Building from the canonical input gives back the customer, up to "0"
      fields, which render the same: build then asDOMDocument reproduces the
      customer's tree. */
  lemma RoundTrip(env: Env, c: Customer, itemInputs: seq<Raw>, idInputs: seq<Raw>)
    requires Rebuildable(env, c, itemInputs, idInputs)
    ensures Build(env, ToRaw(c, itemInputs, idInputs)) == Ok(Normalised(c))
    ensures Dom(Normalised(c)) == Dom(c)
  {
    BuildCanonical(env, c, itemInputs, idInputs);
    OpaqueListValidatesOneOrMore(env, c.reportItems, ReportItemsKind);
    OpaqueListValidates(env, c.institutionalIdentifiers, IdentifierKind);
    ContactsValidate(env, Contact.Normalised(c.contacts));
    ConsortiumValidates(env, Normalised(c).consortium);
    Contact.NormalisedDoms(env, c.contacts);
  }

  /** The trees of a list of customers, in order. */
  function Doms(cs: seq<Customer>): (xs: seq<Xml>)
    ensures |xs| == |cs| && forall i :: 0 <= i < |cs| ==> xs[i] == Dom(cs[i])
  {
    seq(|cs|, i requires 0 <= i < |cs| => Dom(cs[i]))
  }

  /** Every tree of a list of customers is a Customer element. */
  lemma DomsNames(cs: seq<Customer>)
    ensures Names(Doms(cs)) == Repeat("Customer", |cs|)
  {
  }

  /** A list of customers as objects. */
  function AsNodes(cs: seq<Customer>): (ns: seq<Node>)
    ensures |ns| == |cs| && forall i :: 0 <= i < |cs| ==> ns[i] == NCustomer(cs[i])
  {
    seq(|cs|, i requires 0 <= i < |cs| => NCustomer(cs[i]))
  }

  /** A list of customers as loose values. */
  function AsObjects(cs: seq<Customer>): (vs: seq<Raw>)
    ensures vs == ReportBuilder.Objects(AsNodes(cs))
  {
    ReportBuilder.Objects(AsNodes(cs))
  }

  /** A list of customer objects passes the one-or-more check and reads back
      as the same customers. */
  lemma ListValidates(env: Env, cs: seq<Customer>)
    ensures OneOrMoreCustomers(env, ListOf(AsObjects(cs))) == Ok(cs)
  {
    ObjectsValidate(env, cs);
    var r := OneOrMoreCustomers(env, ListOf(AsObjects(cs)));
    var xs := AsObjects(cs);
    assert r.value == cs by {
      assert forall i :: 0 <= i < |xs| ==> RObj(NCustomer(r.value[i])) == xs[i] == RObj(NCustomer(cs[i]));
    }
  }

  /** The objects pass the check unchanged. */
  lemma ObjectsValidate(env: Env, cs: seq<Customer>)
    ensures ValidateOneOrMoreOf(env, ListOf(AsObjects(cs)), "Customer") == Ok(AsObjects(cs))
  {
    ClassNameSpellings("Customer");
    BuiltListValidates(env, AsNodes(cs), "Customer");
  }
}
