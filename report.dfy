/** COUNTER\Report: one usage report, with its Created, ID, Version, Name and
    Title attributes, the vendor that produced it and the customers it covers. */
module Report {
  import opened Nodes
  import opened Php
  import opened Xml
  import opened Dates
  import opened ReportBuilder
  import Vendor
  import Customer

  const ClassName: string := "COUNTER\\Report"

  /** The attribute names asDOMDocument() writes, in its order. */
  const AttributeNames: seq<string> := ["Created", "ID", "Version", "Name", "Title"]

  /** __construct($id, $version, $name, $title, $customers, $vendor, $created = ''):
      the five scalars must be strings (checked in the order id, version,
      name, title, created); an empty created is replaced by the current
      time as date("Y-m-d\Th:i:sP") writes it, with the 12-hour hour; then
      the vendor must be one Vendor object and the customers one or more
      Customer objects. */
  function New(env: Env, id: Raw, version: Raw, name: Raw, title: Raw, customers: Raw, vendor: Raw,
               created: Raw): (r: Result<Report>)
    ensures r.Ok? <==> id.RStr? && version.RStr? && name.RStr? && title.RStr? && created.RStr?
                       && OneVendor(env, vendor).Ok? && OneOrMoreCustomers(env, customers).Ok?
    ensures r.Ok? ==> r.value.id == id.s && r.value.version == version.s
                      && r.value.name == name.s && r.value.title == title.s
    ensures r.Ok? ==> r.value.created == (if TruthyString(created.s) then created.s else CreatedStampAsWritten(env.now))
    ensures r.Ok? ==> r.value.created != ""
    ensures r.Ok? ==> Ok(r.value.vendor) == OneVendor(env, vendor)
                      && Ok(r.value.customers) == OneOrMoreCustomers(env, customers)
    ensures !id.RStr? ==> r == Err(InvalidString(GetType(id)))
    ensures id.RStr? && version.RStr? && name.RStr? && title.RStr? && !created.RStr? ==>
      r == Err(InvalidString(GetType(created)))
    ensures id.RStr? && version.RStr? && name.RStr? && title.RStr? && created.RStr? && OneVendor(env, vendor).Err? ==>
      r == Err(OneVendor(env, vendor).error)
  {
    var i :- ValidateString(id);
    var ver :- ValidateString(version);
    var n :- ValidateString(name);
    var t :- ValidateString(title);
    var c :- ValidateString(created);
    var stamp := if TruthyString(c) then c else CreatedStampAsWritten(env.now);
    var v :- OneVendor(env, vendor);
    var cs :- OneOrMoreCustomers(env, customers);
    Ok(Report(stamp, i, ver, n, t, v, cs))
  }

  /** With Created left empty, a report constructed in the morning and one
      constructed twelve hours later get the same Created text: the
      constructor's default stamp drops the half of the day. */
  lemma DefaultCreatedConflatesHalfDays(env: Env, id: Raw, version: Raw, name: Raw, title: Raw,
                                        customers: Raw, vendor: Raw)
    requires env.now.hour < 12
    requires New(env, id, version, name, title, customers, vendor, RStr("")).Ok?
    ensures var pm := env.(now := env.now.(hour := env.now.hour + 12));
      pm.now != env.now
      && (New(pm, id, version, name, title, customers, vendor, RStr("")).Ok? ==>
          New(pm, id, version, name, title, customers, vendor, RStr("")).value.created
          == New(env, id, version, name, title, customers, vendor, RStr("")).value.created)
  {
    CreatedStampAsWrittenConflatesHalfDays(env.now);
  }

  /** The keys build() needs: ID, Version, Name, Title, Customer and Vendor. */
  predicate Complete(es: seq<Entry>)
  {
    Isset(es, StrKey("ID")) && Isset(es, StrKey("Version")) && Isset(es, StrKey("Name"))
    && Isset(es, StrKey("Title")) && Isset(es, StrKey("Customer")) && Isset(es, StrKey("Vendor"))
  }

  /** build($array): the customers are built first, then the vendor, then the
      constructor runs with Created defaulting to ''. */
  function Build(env: Env, data: Raw): (r: Result<Report>)
    ensures !data.RArr? ==> r == Err(BuildFailed(ClassName, data))
    ensures data.RArr? && !Complete(data.entries) ==> r == Err(BuildFailed(ClassName, data))
  {
    match data
    case RArr(es) =>
      if Complete(es) then
        var customers :- BuildMultiple(Customer.Builder(env), Get(es, StrKey("Customer")));
        var vendor :- Vendor.Build(env, Get(es, StrKey("Vendor")));
        New(env, Get(es, StrKey("ID")), Get(es, StrKey("Version")), Get(es, StrKey("Name")),
            Get(es, StrKey("Title")), customers, RObj(NVendor(vendor)), Coalesce(es, StrKey("Created"), RStr("")))
      else BuildFailure(ClassName, data)
    case _ => BuildFailure(ClassName, data)
  }

  /** Report::build as a builder of objects. */
  function Builder(env: Env): Raw -> Result<Node>
  {
    (v: Raw) => match Build(env, v)
                case Ok(x) => Ok(NReport(x))
                case Err(e) => Err(e)
  }

  /** Whatever build() returns has a Created stamp: the given one when it is
      set and truthy, otherwise the time of the call. */
  lemma BuildStampsCreated(env: Env, es: seq<Entry>)
    requires Build(env, RArr(es)).Ok?
    ensures Complete(es)
    ensures var r := Build(env, RArr(es)).value;
      r.created != ""
      && (Isset(es, StrKey("Created")) && Get(es, StrKey("Created")).RStr? && TruthyString(Get(es, StrKey("Created")).s)
          ==> r.created == Get(es, StrKey("Created")).s)
      && (!Isset(es, StrKey("Created")) ==> r.created == CreatedStampAsWritten(env.now))
  {
    var customers := BuildMultiple(Customer.Builder(env), Get(es, StrKey("Customer")));
    var vendor := Vendor.Build(env, Get(es, StrKey("Vendor")));
    assert Complete(es) && customers.Ok? && vendor.Ok?;
    var created := Coalesce(es, StrKey("Created"), RStr(""));
    assert Build(env, RArr(es)) == New(env, Get(es, StrKey("ID")), Get(es, StrKey("Version")), Get(es, StrKey("Name")),
      Get(es, StrKey("Title")), customers.value, RObj(NVendor(vendor.value)), created);
  }

  /** The attributes asDOMDocument() writes, in order, with their values. */
  function Attrs(r: Report): (attrs: seq<Attr>)
    ensures |attrs| == |AttributeNames|
    ensures forall i :: 0 <= i < |attrs| ==> attrs[i].ns == "" && attrs[i].name == AttributeNames[i]
  {
    [Attr("", "Created", r.created), Attr("", "ID", r.id), Attr("", "Version", r.version),
     Attr("", "Name", r.name), Attr("", "Title", r.title)]
  }

  /** asDOMDocument(): a Report element with the five attributes, the Vendor
      element, then one Customer element per customer in order. */
  function Dom(r: Report): (x: Xml)
    ensures x.Element? && x.name == "Report" && x.attrs == Attrs(r)
  {
    Element("", "Report", Attrs(r), [Vendor.Dom(r.vendor)] + Customer.Doms(r.customers))
  }

  /** The attributes come in the order Created, ID, Version, Name, Title, each
      carrying its field; the children are the vendor, then the customers in
      list order. */
  lemma DomOrder(r: Report)
    ensures AttrNames(Dom(r)) == AttributeNames
    ensures Dom(r).attrs[0].value == r.created && Dom(r).attrs[1].value == r.id
            && Dom(r).attrs[2].value == r.version && Dom(r).attrs[3].value == r.name
            && Dom(r).attrs[4].value == r.title
    ensures ChildNames(Dom(r)) == ["Vendor"] + Repeat("Customer", |r.customers|)
    ensures Dom(r).children[0] == Vendor.Dom(r.vendor)
    ensures forall i :: 0 <= i < |r.customers| ==> Dom(r).children[i + 1] == Customer.Dom(r.customers[i])
  {
    var a, b := [Vendor.Dom(r.vendor)], Customer.Doms(r.customers);
    NamesAppend(a, b);
    Customer.DomsNames(r.customers);
  }

  /** A report the constructor accepted renders a non-empty Created attribute first. */
  lemma CreatedRendered(env: Env, id: Raw, version: Raw, name: Raw, title: Raw, customers: Raw, vendor: Raw, created: Raw)
    requires New(env, id, version, name, title, customers, vendor, created).Ok?
    ensures var x := Dom(New(env, id, version, name, title, customers, vendor, created).value);
      x.attrs[0].name == "Created" && x.attrs[0].value != ""
  {
  }

  /** asDOMDocument() as it runs: a loop over the attribute names, the
      vendor's tree, then a loop appending each customer's tree. */
  method AsDOMDocument(r: Report) returns (x: Xml)
    ensures x == Dom(r)
  {
    var values := [r.created, r.id, r.version, r.name, r.title];
    var attrs: seq<Attr> := [];
    var k := 0;
    while k < |AttributeNames|
      invariant 0 <= k <= |AttributeNames| && |attrs| == k
      invariant forall j :: 0 <= j < k ==> attrs[j] == Attr("", AttributeNames[j], values[j])
    {
      attrs := attrs + [Attr("", AttributeNames[k], values[k])];
      k := k + 1;
    }
    assert attrs == Attrs(r);
    var vendor := Vendor.AsDOMDocument(r.vendor);
    var children: seq<Xml> := [vendor];
    var doms := Customer.Doms(r.customers);
    var i := 0;
    while i < |r.customers|
      invariant 0 <= i <= |r.customers|
      invariant children == [vendor] + doms[..i]
    {
      var c := Customer.AsDOMDocument(r.customers[i]);
      children := children + [c];
      i := i + 1;
      assert doms[..i] == doms[..i - 1] + [doms[i - 1]];
    }
    assert doms[..i] == doms;
    x := Element("", "Report", attrs, children);
  }

  /** The canonical input for a report, given the inputs its vendor and its
      customers were built from. */
  function ToRaw(r: Report, vendorInput: Raw, customerInputs: seq<Raw>): Raw
  {
    RArr(Fields(RStr(r.id), RStr(r.version), RStr(r.name), RStr(r.title), ListOf(customerInputs), vendorInput,
                RStr(r.created)))
  }

  /** An input array with all seven keys set, in the order ID, Version, Name,
      Title, Customer, Vendor, Created. */
  function Fields(id: Raw, version: Raw, name: Raw, title: Raw, customers: Raw, vendor: Raw, created: Raw): seq<Entry>
  {
    [Entry(StrKey("ID"), id), Entry(StrKey("Version"), version), Entry(StrKey("Name"), name),
     Entry(StrKey("Title"), title), Entry(StrKey("Customer"), customers), Entry(StrKey("Vendor"), vendor),
     Entry(StrKey("Created"), created)]
  }

  /** Each key of such an array reads its own value. */
  lemma FieldsLookup(id: Raw, version: Raw, name: Raw, title: Raw, customers: Raw, vendor: Raw, created: Raw)
    ensures var es := Fields(id, version, name, title, customers, vendor, created);
      Lookup(es, StrKey("ID")) == Some(id) && Lookup(es, StrKey("Version")) == Some(version)
      && Lookup(es, StrKey("Name")) == Some(name) && Lookup(es, StrKey("Title")) == Some(title)
      && Lookup(es, StrKey("Customer")) == Some(customers) && Lookup(es, StrKey("Vendor")) == Some(vendor)
      && Lookup(es, StrKey("Created")) == Some(created)
  {
    var es := Fields(id, version, name, title, customers, vendor, created);
    assert DistinctKeys(es);
    LookupDistinct(es, 0);
    LookupDistinct(es, 1);
    LookupDistinct(es, 2);
    LookupDistinct(es, 3);
    LookupDistinct(es, 4);
    LookupDistinct(es, 5);
    LookupDistinct(es, 6);
  }

  /** Where the first attributes of the canonical input are found. */
  lemma CanonicalIds(r: Report, vendorInput: Raw, customerInputs: seq<Raw>)
    ensures var es := ToRaw(r, vendorInput, customerInputs).entries;
      Isset(es, StrKey("ID")) && Get(es, StrKey("ID")) == RStr(r.id)
      && Isset(es, StrKey("Version")) && Get(es, StrKey("Version")) == RStr(r.version)
      && Isset(es, StrKey("Name")) && Get(es, StrKey("Name")) == RStr(r.name)
  {
    FieldsLookup(RStr(r.id), RStr(r.version), RStr(r.name), RStr(r.title), ListOf(customerInputs), vendorInput,
                 RStr(r.created));
  }

  /** Where the title and the Created stamp of the canonical input are found. */
  lemma CanonicalStamp(r: Report, vendorInput: Raw, customerInputs: seq<Raw>)
    ensures var es := ToRaw(r, vendorInput, customerInputs).entries;
      Isset(es, StrKey("Title")) && Get(es, StrKey("Title")) == RStr(r.title)
      && Coalesce(es, StrKey("Created"), RStr("")) == RStr(r.created)
  {
    FieldsLookup(RStr(r.id), RStr(r.version), RStr(r.name), RStr(r.title), ListOf(customerInputs), vendorInput,
                 RStr(r.created));
  }

  /** Where the vendor and the customers of the canonical input are found. */
  lemma CanonicalParts(r: Report, vendorInput: Raw, customerInputs: seq<Raw>)
    requires vendorInput != RNull
    ensures var es := ToRaw(r, vendorInput, customerInputs).entries;
      Isset(es, StrKey("Customer")) && Get(es, StrKey("Customer")) == ListOf(customerInputs)
      && Isset(es, StrKey("Vendor")) && Get(es, StrKey("Vendor")) == vendorInput
  {
    FieldsLookup(RStr(r.id), RStr(r.version), RStr(r.name), RStr(r.title), ListOf(customerInputs), vendorInput,
                 RStr(r.created));
  }

  /** What a round trip needs: inputs that build to the report's vendor and,
      one by one, to its customers. */
  predicate Rebuildable(env: Env, r: Report, vendorInput: Raw, customerInputs: seq<Raw>)
  {
    Vendor.Build(env, vendorInput) == Ok(r.vendor)
    && |customerInputs| == |r.customers|
    && forall i :: 0 <= i < |r.customers| ==> Customer.Build(env, customerInputs[i]) == Ok(r.customers[i])
  }

  /** The report that building from its canonical input gives: an empty (or
      "0") Created is stamped with the time of the call. */
  function Normalised(env: Env, r: Report): (n: Report)
    ensures n.created != ""
    ensures TruthyString(r.created) ==> n == r
    ensures n.id == r.id && n.version == r.version && n.name == r.name && n.title == r.title
    ensures n.vendor == r.vendor && n.customers == r.customers
  {
    if TruthyString(r.created) then r else r.(created := CreatedStampAsWritten(env.now))
  }

  /** The canonical input reaches the constructor with its scalars as they
      are and its vendor and customers built. */
  lemma BuildCanonical(env: Env, r: Report, vendorInput: Raw, customerInputs: seq<Raw>)
    requires Rebuildable(env, r, vendorInput, customerInputs)
    ensures Build(env, ToRaw(r, vendorInput, customerInputs)) ==
      New(env, RStr(r.id), RStr(r.version), RStr(r.name), RStr(r.title),
          ListOf(Customer.AsObjects(r.customers)), RObj(NVendor(r.vendor)), RStr(r.created))
  {
    assert vendorInput != RNull;
    CanonicalIds(r, vendorInput, customerInputs);
    CanonicalStamp(r, vendorInput, customerInputs);
    CanonicalParts(r, vendorInput, customerInputs);
    BuildMultipleOfList(Customer.Builder(env), customerInputs, Customer.AsNodes(r.customers));
  }

  /** The constructor, given the report's own fields as objects, keeps them,
      stamping an empty Created. */
  lemma NewCanonical(env: Env, r: Report)
    ensures New(env, RStr(r.id), RStr(r.version), RStr(r.name), RStr(r.title),
                ListOf(Customer.AsObjects(r.customers)), RObj(NVendor(r.vendor)), RStr(r.created))
            == Ok(Normalised(env, r))
  {
    Customer.ListValidates(env, r.customers);
    assert OneVendor(env, RObj(NVendor(r.vendor))) == Ok(r.vendor) by {
      ClassNameSpellings("Vendor");
    }
  }

  /** Building from the canonical input gives back the report, with an empty
      Created stamped; a report with a Created set comes back unchanged. */
  lemma RoundTrip(env: Env, r: Report, vendorInput: Raw, customerInputs: seq<Raw>)
    requires Rebuildable(env, r, vendorInput, customerInputs)
    ensures Build(env, ToRaw(r, vendorInput, customerInputs)) == Ok(Normalised(env, r))
    ensures TruthyString(r.created) ==> Build(env, ToRaw(r, vendorInput, customerInputs)) == Ok(r)
  {
    BuildCanonical(env, r, vendorInput, customerInputs);
    NewCanonical(env, r);
  }

  /** The trees of a list of reports. */
  function Doms(rs: seq<Report>): (xs: seq<Xml>)
    ensures |xs| == |rs| && forall i :: 0 <= i < |rs| ==> xs[i] == Dom(rs[i])
  {
    seq(|rs|, i requires 0 <= i < |rs| => Dom(rs[i]))
  }

  /** Every tree of a list of reports is a Report element. */
  lemma DomsNames(rs: seq<Report>)
    ensures Names(Doms(rs)) == Repeat("Report", |rs|)
  {
  }

  /** A list of reports as objects. */
  function AsNodes(rs: seq<Report>): (ns: seq<Node>)
    ensures |ns| == |rs| && forall i :: 0 <= i < |rs| ==> ns[i] == NReport(rs[i])
  {
    seq(|rs|, i requires 0 <= i < |rs| => NReport(rs[i]))
  }

  /** A list of reports as loose values. */
  function AsObjects(rs: seq<Report>): (vs: seq<Raw>)
    ensures vs == ReportBuilder.Objects(AsNodes(rs))
  {
    ReportBuilder.Objects(AsNodes(rs))
  }

  /** A list of report objects passes the one-or-more check and reads back
      as the same reports. */
  lemma ListValidates(env: Env, rs: seq<Report>)
    ensures OneOrMoreReports(env, ListOf(AsObjects(rs))) == Ok(rs)
  {
    ObjectsValidate(env, rs);
    var r := OneOrMoreReports(env, ListOf(AsObjects(rs)));
    var xs := AsObjects(rs);
    assert r.value == rs by {
      assert forall i :: 0 <= i < |xs| ==> RObj(NReport(r.value[i])) == xs[i] == RObj(NReport(rs[i]));
    }
  }

  /** The objects pass the check unchanged. */
  lemma ObjectsValidate(env: Env, rs: seq<Report>)
    ensures ValidateOneOrMoreOf(env, ListOf(AsObjects(rs)), "Report") == Ok(AsObjects(rs))
  {
    ClassNameSpellings("Report");
    BuiltListValidates(env, AsNodes(rs), "Report");
  }
}
