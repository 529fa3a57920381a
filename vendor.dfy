/** COUNTER\Vendor: the organisation that provides the usage data, identified
    by its ID, with an optional name, contacts, web site and logo. */
module Vendor {
  import opened Nodes
  import opened Php
  import opened Xml
  import opened ReportBuilder
  import Contact

  const ClassName: string := "COUNTER\\Vendor"

  /** __construct($id, $name = '', $contacts = [], $webSiteUrl = '', $logoUrl = ''):
      the four scalars must be strings (checked in the order id, name,
      webSiteUrl, logoUrl), and the contacts zero or more Contact objects. */
  function New(env: Env, id: Raw, name: Raw, contacts: Raw, webSiteUrl: Raw, logoUrl: Raw): (r: Result<Vendor>)
    ensures r.Ok? <==> id.RStr? && name.RStr? && webSiteUrl.RStr? && logoUrl.RStr?
                       && ZeroOrMoreContacts(env, contacts).Ok?
    ensures r.Ok? ==> r.value.id == id.s && r.value.name == name.s
                      && r.value.webSiteUrl == webSiteUrl.s && r.value.logoUrl == logoUrl.s
    ensures r.Ok? ==> Ok(r.value.contacts) == ZeroOrMoreContacts(env, contacts)
    ensures !id.RStr? ==> r == Err(InvalidString(GetType(id)))
    ensures !Truthy(contacts) && id.RStr? && name.RStr? && webSiteUrl.RStr? && logoUrl.RStr? ==>
      r == Ok(Vendor(name.s, id.s, [], webSiteUrl.s, logoUrl.s))
  {
    var i :- ValidateString(id);
    var n :- ValidateString(name);
    var w :- ValidateString(webSiteUrl);
    var l :- ValidateString(logoUrl);
    var cs :- ZeroOrMoreContacts(env, contacts);
    Ok(Vendor(n, i, cs, w, l))
  }

  /** build($array): an array with ID set; every other field is optional. */
  function Build(env: Env, data: Raw): (r: Result<Vendor>)
    ensures !data.RArr? ==> r == Err(BuildFailed(ClassName, data))
    ensures data.RArr? && !Isset(data.entries, StrKey("ID")) ==> r == Err(BuildFailed(ClassName, data))
  {
    match data
    case RArr(es) =>
      if Isset(es, StrKey("ID")) then
        var contacts :- BuildMultiple(Contact.Builder(env), Coalesce(es, StrKey("Contact"), RArr([])));
        New(env, Get(es, StrKey("ID")), Coalesce(es, StrKey("Name"), RStr("")), contacts,
            Coalesce(es, StrKey("WebSiteUrl"), RStr("")), Coalesce(es, StrKey("LogoUrl"), RStr("")))
      else BuildFailure(ClassName, data)
    case _ => BuildFailure(ClassName, data)
  }

  /** Vendor::build as a builder of objects. */
  function Builder(env: Env): Raw -> Result<Node>
  {
    (v: Raw) => match Build(env, v)
                case Ok(x) => Ok(NVendor(x))
                case Err(e) => Err(e)
  }

  /** Only ID is needed: a string ID alone gives a vendor with that ID, no
      contacts and empty name, web site and logo. */
  lemma BuildFromIdOnly(env: Env, id: string)
    ensures Build(env, RArr([Entry(StrKey("ID"), RStr(id))])) == Ok(Vendor("", id, [], "", ""))
  {
    var es := [Entry(StrKey("ID"), RStr(id))];
    LookupMissing(es, StrKey("Contact"));
    LookupMissing(es, StrKey("Name"));
    LookupMissing(es, StrKey("WebSiteUrl"));
    LookupMissing(es, StrKey("LogoUrl"));
  }

  /** With ID set, the optional fields are read with their defaults: whatever
      builds has the given ID, and a name, web site or logo that was not set is ''. */
  lemma BuildFromFields(env: Env, es: seq<Entry>)
    requires Isset(es, StrKey("ID"))
    ensures var r := Build(env, RArr(es));
      (r.Ok? ==> RStr(r.value.id) == Get(es, StrKey("ID")))
      && (r.Ok? ==> (if Isset(es, StrKey("Name")) then RStr(r.value.name) == Get(es, StrKey("Name")) else r.value.name == ""))
      && (r.Ok? ==> (if Isset(es, StrKey("WebSiteUrl")) then RStr(r.value.webSiteUrl) == Get(es, StrKey("WebSiteUrl")) else r.value.webSiteUrl == ""))
      && (r.Ok? ==> (if Isset(es, StrKey("LogoUrl")) then RStr(r.value.logoUrl) == Get(es, StrKey("LogoUrl")) else r.value.logoUrl == ""))
      && (r.Ok? && !Isset(es, StrKey("Contact")) ==> r.value.contacts == [])
      && (!Get(es, StrKey("ID")).RStr? ==>
            r.Err? && (BuildMultiple(Contact.Builder(env), Coalesce(es, StrKey("Contact"), RArr([]))).Ok? ==>
                       r.error == InvalidString(GetType(Get(es, StrKey("ID"))))))
  {
  }

  /** asDOMDocument(): a Vendor element holding Name if set, ID always, each
      Contact in order, then WebSiteUrl and LogoUrl if set. */
  function Dom(v: Vendor): (x: Xml)
    ensures x.Element? && x.name == "Vendor" && x.attrs == []
  {
    Element("", "Vendor", [],
      OptionalLeaf("Name", v.name) + [Leaf("ID", v.id)] + Contact.Doms(v.contacts)
      + OptionalLeaf("WebSiteUrl", v.webSiteUrl) + OptionalLeaf("LogoUrl", v.logoUrl))
  }

  /** The children come in the schema's order, ID is always present, and an
      empty (or "0") name, web site or logo produces no element. */
  lemma DomOrder(v: Vendor)
    ensures ChildNames(Dom(v)) == (if TruthyString(v.name) then ["Name"] else []) + ["ID"]
                                  + Repeat("Contact", |v.contacts|)
                                  + (if TruthyString(v.webSiteUrl) then ["WebSiteUrl"] else [])
                                  + (if TruthyString(v.logoUrl) then ["LogoUrl"] else [])
    ensures Leaf("ID", v.id) in Dom(v).children
  {
    var a, b, c := OptionalLeaf("Name", v.name), [Leaf("ID", v.id)], Contact.Doms(v.contacts);
    var d, e := OptionalLeaf("WebSiteUrl", v.webSiteUrl), OptionalLeaf("LogoUrl", v.logoUrl);
    assert Dom(v).children == a + b + c + d + e;
    NamesAppend(a, b);
    NamesAppend(a + b, c);
    NamesAppend(a + b + c, d);
    NamesAppend(a + b + c + d, e);
    Contact.DomsNames(v.contacts);
    assert (a + b + c + d + e)[|a|] == Leaf("ID", v.id);
  }

  /** asDOMDocument() as it runs: the optional leaves, then a loop appending
      each contact's tree. */
  method AsDOMDocument(v: Vendor) returns (x: Xml)
    ensures x == Dom(v)
  {
    var children := AppendOptionalLeaf([], "Name", v.name);
    children := children + [Leaf("ID", v.id)];
    children := AppendAll(children, Contact.Doms(v.contacts));
    children := AppendOptionalLeaf(children, "WebSiteUrl", v.webSiteUrl);
    children := AppendOptionalLeaf(children, "LogoUrl", v.logoUrl);
    assert [] + OptionalLeaf("Name", v.name) == OptionalLeaf("Name", v.name);
    x := Element("", "Vendor", [], children);
  }

  /** The canonical input for a vendor: every field under its element name,
      the contacts as a list of their canonical inputs. */
  function ToRaw(v: Vendor): Raw
  {
    RArr(Fields(RStr(v.id), RStr(v.name), Contact.ListToRaw(v.contacts), RStr(v.webSiteUrl), RStr(v.logoUrl)))
  }

  /** An input array with all five keys set, in the order ID, Name, Contact,
      WebSiteUrl, LogoUrl. */
  function Fields(id: Raw, name: Raw, contacts: Raw, webSiteUrl: Raw, logoUrl: Raw): seq<Entry>
  {
    [Entry(StrKey("ID"), id), Entry(StrKey("Name"), name), Entry(StrKey("Contact"), contacts),
     Entry(StrKey("WebSiteUrl"), webSiteUrl), Entry(StrKey("LogoUrl"), logoUrl)]
  }

  /** Each key of such an array reads its own value. */
  lemma FieldsLookup(id: Raw, name: Raw, contacts: Raw, webSiteUrl: Raw, logoUrl: Raw)
    ensures var es := Fields(id, name, contacts, webSiteUrl, logoUrl);
      Lookup(es, StrKey("ID")) == Some(id) && Lookup(es, StrKey("Name")) == Some(name)
      && Lookup(es, StrKey("Contact")) == Some(contacts)
      && Lookup(es, StrKey("WebSiteUrl")) == Some(webSiteUrl) && Lookup(es, StrKey("LogoUrl")) == Some(logoUrl)
  {
    var es := Fields(id, name, contacts, webSiteUrl, logoUrl);
    assert DistinctKeys(es);
    LookupDistinct(es, 0);
    LookupDistinct(es, 1);
    LookupDistinct(es, 2);
    LookupDistinct(es, 3);
    LookupDistinct(es, 4);
  }

  /** Where the fields of the canonical input are found. */
  lemma CanonicalFields(v: Vendor)
    ensures var es := ToRaw(v).entries;
      Isset(es, StrKey("ID")) && Get(es, StrKey("ID")) == RStr(v.id)
      && Coalesce(es, StrKey("Name"), RStr("")) == RStr(v.name)
      && Coalesce(es, StrKey("Contact"), RArr([])) == Contact.ListToRaw(v.contacts)
      && Coalesce(es, StrKey("WebSiteUrl"), RStr("")) == RStr(v.webSiteUrl)
      && Coalesce(es, StrKey("LogoUrl"), RStr("")) == RStr(v.logoUrl)
  {
    FieldsLookup(RStr(v.id), RStr(v.name), Contact.ListToRaw(v.contacts), RStr(v.webSiteUrl), RStr(v.logoUrl));
  }

  /** The canonical input reaches the constructor with its scalars as they
      are and its contacts built. */
  lemma BuildCanonical(env: Env, v: Vendor)
    ensures Build(env, ToRaw(v)) == New(env, RStr(v.id), RStr(v.name),
      ListOf(Contact.AsObjects(Contact.Normalised(v.contacts))), RStr(v.webSiteUrl), RStr(v.logoUrl))
  {
    Contact.ListBuilds(env, v.contacts);
    CanonicalFields(v);
  }

  /** Building from the canonical input gives back the vendor, up to "0"
      contact fields, which render the same: build then asDOMDocument
      reproduces the vendor's tree. */
  lemma RoundTrip(env: Env, v: Vendor)
    ensures Build(env, ToRaw(v)) == Ok(v.(contacts := Contact.Normalised(v.contacts)))
    ensures Dom(Build(env, ToRaw(v)).value) == Dom(v)
  {
    var n := Contact.Normalised(v.contacts);
    BuildCanonical(env, v);
    Contact.ListValidates(env, n);
    Contact.NormalisedDoms(env, v.contacts);
  }
}
