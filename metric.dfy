/** COUNTER\Metric: the usage counted over one period for one category, as
    one or more performance counters, with optional publication years. It
    renders as an ItemPerformance element. */
module Metric {
  import opened Nodes
  import opened Php
  import opened Xml
  import opened Decimal
  import opened ReportBuilder
  import DateRange

  const ClassName: string := "COUNTER\\Metric"

  /** `if ($pubYr) { $this->pubYr = $this->validatePositiveInteger($pubYr); }`:
      a falsy value leaves the field unset, a truthy one is stored as its
      intval(), which must not be negative. */
  function OptionalYear(v: Raw): (r: Result<Option<nat>>)
    ensures r.Ok? <==> !Truthy(v) || IntVal(v) >= 0
    ensures r.Ok? ==> (r.value.None? <==> !Truthy(v))
    ensures r.Ok? && r.value.Some? ==> r.value.value == IntVal(v)
  {
    if Truthy(v) then
      var n :- ValidatePositiveInteger(v);
      Ok(Some(n))
    else Ok(None)
  }

  /** __construct($period, $category, $instances, $pubYrFrom = null,
      $pubYrTo = null, $pubYr = null): a DateRange object, a category string
      from getCategories(), one or more PerformanceCounter objects, then the
      publication years from, to and year, each checked only when truthy. */
  function New(env: Env, period: Raw, category: Raw, instances: Raw,
               pubYrFrom: Raw, pubYrTo: Raw, pubYr: Raw): (r: Result<Metric>)
    ensures r.Ok? <==> OneDateRange(env, period).Ok? && category.RStr? && category.s in Categories
                       && OneOrMoreOpaques(env, instances, PerformanceCounterKind).Ok?
                       && OptionalYear(pubYrFrom).Ok? && OptionalYear(pubYrTo).Ok? && OptionalYear(pubYr).Ok?
    ensures r.Ok? ==> period == RObj(NDateRange(r.value.period)) && r.value.category == category.s
    ensures r.Ok? ==> Ok(r.value.instances) == OneOrMoreOpaques(env, instances, PerformanceCounterKind)
    ensures r.Ok? ==> Ok(r.value.pubYrFrom) == OptionalYear(pubYrFrom) && Ok(r.value.pubYrTo) == OptionalYear(pubYrTo)
                      && Ok(r.value.pubYr) == OptionalYear(pubYr)
    ensures OneDateRange(env, period).Ok? && category.RStr? && category.s !in Categories ==>
      r == Err(InvalidCategory(category.s))
  {
    var p :- OneDateRange(env, period);
    var c :- ValidateString(category);
    if c !in Categories then Err(InvalidCategory(c))
    else
      var insts :- OneOrMoreOpaques(env, instances, PerformanceCounterKind);
      var from :- OptionalYear(pubYrFrom);
      var to :- OptionalYear(pubYrTo);
      var yr :- OptionalYear(pubYr);
      Ok(Metric(yr, from, to, p, c, insts))
  }

  /** build($array): an array with Period, Instance and Category set; the
      instances are built first, then the period with DateRange::build, and
      the publication years default to null. */
  function Build(env: Env, data: Raw): (r: Result<Metric>)
    ensures !data.RArr? ==> r == Err(BuildFailed(ClassName, data))
    ensures data.RArr? && !(Isset(data.entries, StrKey("Period")) && Isset(data.entries, StrKey("Instance"))
                            && Isset(data.entries, StrKey("Category"))) ==>
      r == Err(BuildFailed(ClassName, data))
    ensures r.Ok? ==> r.value.category in Categories
  {
    match data
    case RArr(es) =>
      if Isset(es, StrKey("Period")) && Isset(es, StrKey("Instance")) && Isset(es, StrKey("Category")) then
        var instances :- BuildMultiple(OpaqueBuilder(env, PerformanceCounterKind), Get(es, StrKey("Instance")));
        var period :- DateRange.Build(env, Get(es, StrKey("Period")));
        New(env, RObj(NDateRange(period)), Get(es, StrKey("Category")), instances,
            Coalesce(es, StrKey("PubYrFrom"), RNull), Coalesce(es, StrKey("PubYrTo"), RNull),
            Coalesce(es, StrKey("PubYr"), RNull))
      else BuildFailure(ClassName, data)
    case _ => BuildFailure(ClassName, data)
  }

  /** The categories are exactly Requests, Searches and Access_denied. */
  lemma CategoriesListed(c: string)
    ensures c in Categories <==> c in {"Requests", "Searches", "Access_denied"}
  {
  }

  /** A publication year the metric shows: set and not 0. */
  predicate Shown(y: Option<nat>)
  {
    y.Some? && y.value != 0
  }

  /** The publication-year fields in the order asDOMDocument visits them,
      each with its element and attribute name. */
  function YearFields(m: Metric): (fs: seq<(string, Option<nat>)>)
    ensures |fs| == 3
  {
    [("PubYr", m.pubYr), ("PubYrFrom", m.pubYrFrom), ("PubYrTo", m.pubYrTo)]
  }

  /** The child element a year adds when it is shown. */
  function YearLeaf(f: (string, Option<nat>)): (xs: seq<Xml>)
    ensures |xs| == (if Shown(f.1) then 1 else 0)
  {
    if Shown(f.1) then [Leaf(f.0, NatToString(f.1.value))] else []
  }

  /** The attribute a year adds when it is shown. */
  function YearAttr(f: (string, Option<nat>)): (attrs: seq<Attr>)
    ensures |attrs| == (if Shown(f.1) then 1 else 0)
  {
    if Shown(f.1) then [Attr("", f.0, NatToString(f.1.value))] else []
  }

  /** The child elements the shown years add, in order. */
  function YearLeaves(fs: seq<(string, Option<nat>)>): (xs: seq<Xml>)
    ensures |xs| <= |fs|
  {
    if fs == [] then [] else YearLeaves(fs[..|fs| - 1]) + YearLeaf(fs[|fs| - 1])
  }

  /** The attributes the shown years add, in order. */
  function YearAttrs(fs: seq<(string, Option<nat>)>): (attrs: seq<Attr>)
    ensures |attrs| <= |fs|
  {
    if fs == [] then [] else YearAttrs(fs[..|fs| - 1]) + YearAttr(fs[|fs| - 1])
  }

  /** One more year field adds its element and its attribute at the end. */
  lemma YearsSnoc(fs: seq<(string, Option<nat>)>, f: (string, Option<nat>))
    ensures YearLeaves(fs + [f]) == YearLeaves(fs) + YearLeaf(f)
    ensures YearAttrs(fs + [f]) == YearAttrs(fs) + YearAttr(f)
  {
    assert (fs + [f])[..|fs|] == fs;
  }

  /** The three year fields in turn. */
  lemma YearsUnfold(m: Metric)
    ensures var fs := YearFields(m);
      YearLeaves(fs) == YearLeaf(fs[0]) + YearLeaf(fs[1]) + YearLeaf(fs[2])
      && YearAttrs(fs) == YearAttr(fs[0]) + YearAttr(fs[1]) + YearAttr(fs[2])
  {
    var fs := YearFields(m);
    YearsSnoc([], fs[0]);
    YearsSnoc([fs[0]], fs[1]);
    YearsSnoc([fs[0], fs[1]], fs[2]);
    assert [] + [fs[0]] == [fs[0]];
    assert [fs[0]] + [fs[1]] == [fs[0], fs[1]];
    assert [fs[0], fs[1]] + [fs[2]] == fs;
  }

  /** asDOMDocument(): an ItemPerformance element with the Period, the
      Category if set, the instances, then for each shown year a child
      element; each shown year is also an attribute of the same name. */
  function Dom(m: Metric): (x: Xml)
    ensures x.Element? && x.name == "ItemPerformance"
    ensures |x.children| >= 1 && x.children[0] == DateRange.Dom(m.period)
  {
    Render(DateRange.Dom(m.period), m)
  }

  /** The ItemPerformance element around a given Period tree. */
  function Render(period: Xml, m: Metric): (x: Xml)
    ensures x.Element? && x.name == "ItemPerformance"
    ensures |x.children| >= 1 && x.children[0] == period
  {
    Element("", "ItemPerformance",
      YearAttr(("PubYr", m.pubYr)) + YearAttr(("PubYrFrom", m.pubYrFrom)) + YearAttr(("PubYrTo", m.pubYrTo)),
      [period] + OptionalLeaf("Category", m.category) + OpaqueDoms(m.instances)
      + YearLeaf(("PubYr", m.pubYr)) + YearLeaf(("PubYrFrom", m.pubYrFrom)) + YearLeaf(("PubYrTo", m.pubYrTo)))
  }

  /** The names of the elements the shown years add. */
  lemma YearLeafNames(m: Metric)
    ensures Names(YearLeaf(("PubYr", m.pubYr)) + YearLeaf(("PubYrFrom", m.pubYrFrom)) + YearLeaf(("PubYrTo", m.pubYrTo)))
            == (if Shown(m.pubYr) then ["PubYr"] else []) + (if Shown(m.pubYrFrom) then ["PubYrFrom"] else [])
               + (if Shown(m.pubYrTo) then ["PubYrTo"] else [])
  {
    var d, e, f := YearLeaf(("PubYr", m.pubYr)), YearLeaf(("PubYrFrom", m.pubYrFrom)), YearLeaf(("PubYrTo", m.pubYrTo));
    NamesAppend(d, e);
    NamesAppend(d + e, f);
    assert Names(d) == (if Shown(m.pubYr) then ["PubYr"] else []);
    assert Names(e) == (if Shown(m.pubYrFrom) then ["PubYrFrom"] else []);
    assert Names(f) == (if Shown(m.pubYrTo) then ["PubYrTo"] else []);
  }

  /** The children come in order: Period, Category if set, the instances,
      then PubYr, PubYrFrom and PubYrTo, each when shown. */
  lemma DomOrder(m: Metric)
    ensures ChildNames(Dom(m)) == ["Period"] + (if TruthyString(m.category) then ["Category"] else [])
                                  + Names(OpaqueDoms(m.instances))
                                  + (if Shown(m.pubYr) then ["PubYr"] else [])
                                  + (if Shown(m.pubYrFrom) then ["PubYrFrom"] else [])
                                  + (if Shown(m.pubYrTo) then ["PubYrTo"] else [])
  {
    RenderOrder(DateRange.Dom(m.period), m);
  }

  lemma RenderOrder(period: Xml, m: Metric)
    requires period.Element? && period.name == "Period"
    ensures ChildNames(Render(period, m)) == ["Period"] + (if TruthyString(m.category) then ["Category"] else [])
                                  + Names(OpaqueDoms(m.instances))
                                  + (if Shown(m.pubYr) then ["PubYr"] else [])
                                  + (if Shown(m.pubYrFrom) then ["PubYrFrom"] else [])
                                  + (if Shown(m.pubYrTo) then ["PubYrTo"] else [])
  {
    var left := [period] + OptionalLeaf("Category", m.category) + OpaqueDoms(m.instances);
    var right := YearLeaf(("PubYr", m.pubYr)) + YearLeaf(("PubYrFrom", m.pubYrFrom)) + YearLeaf(("PubYrTo", m.pubYrTo));
    assert Render(period, m).children == left + right;
    NamesAppend(left, right);
    HeadNames(period, m);
    YearLeafNames(m);
  }

  /** The names of the children before the years. */
  lemma HeadNames(period: Xml, m: Metric)
    requires period.Element? && period.name == "Period"
    ensures Names([period] + OptionalLeaf("Category", m.category) + OpaqueDoms(m.instances))
            == ["Period"] + (if TruthyString(m.category) then ["Category"] else []) + Names(OpaqueDoms(m.instances))
  {
    var a, b, c := [period], OptionalLeaf("Category", m.category), OpaqueDoms(m.instances);
    NamesAppend(a, b);
    NamesAppend(a + b, c);
    assert Names(a) == ["Period"];
    assert Names(b) == (if TruthyString(m.category) then ["Category"] else []);
  }

  /** A metric built by the constructor always has a category, so the
      Category element is always rendered, right after the Period. */
  lemma CategoryRendered(m: Metric)
    requires m.category in Categories
    ensures Dom(m).children[1] == Leaf("Category", m.category)
  {
    EnumerationsTruthy();
  }

  /** Year by year, the elements and the attributes match: same count, and
      each element carries its attribute's name and value. */
  lemma {:induction false} YearsMatch(fs: seq<(string, Option<nat>)>)
    ensures |YearLeaves(fs)| == |YearAttrs(fs)|
    ensures forall i :: 0 <= i < |YearAttrs(fs)| ==>
      YearLeaves(fs)[i] == Leaf(YearAttrs(fs)[i].name, YearAttrs(fs)[i].value)
  {
    if fs != [] {
      YearsMatch(fs[..|fs| - 1]);
    }
  }

  /** Each shown year sets an attribute, in the order PubYr, PubYrFrom,
      PubYrTo, and the last children are elements of the same names carrying
      the same values, in the same order; a year unset or 0 gives neither. */
  lemma YearsRendered(m: Metric)
    ensures Dom(m).attrs ==
      (if Shown(m.pubYr) then [Attr("", "PubYr", NatToString(m.pubYr.value))] else [])
      + (if Shown(m.pubYrFrom) then [Attr("", "PubYrFrom", NatToString(m.pubYrFrom.value))] else [])
      + (if Shown(m.pubYrTo) then [Attr("", "PubYrTo", NatToString(m.pubYrTo.value))] else [])
    ensures var x := Dom(m);
      |x.attrs| <= |x.children|
      && forall i :: 0 <= i < |x.attrs| ==> x.children[|x.children| - |x.attrs| + i] == Leaf(x.attrs[i].name, x.attrs[i].value)
  {
    var x := Dom(m);
    var fs := YearFields(m);
    var p := [DateRange.Dom(m.period)] + OptionalLeaf("Category", m.category) + OpaqueDoms(m.instances);
    YearsUnfold(m);
    YearsMatch(fs);
    var ls, ats := YearLeaves(fs), YearAttrs(fs);
    assert x.children == p + ls && x.attrs == ats;
    assert x.children[|x.children| - |x.attrs|..] == ls;
  }

  /** The foreach over the year keys: for each shown year, an element and an
      attribute of its name carrying its decimal value. */
  method RenderYears(fs: seq<(string, Option<nat>)>) returns (leaves: seq<Xml>, attrs: seq<Attr>)
    ensures leaves == YearLeaves(fs) && attrs == YearAttrs(fs)
  {
    leaves, attrs := [], [];
    var j := 0;
    while j < |fs|
      invariant 0 <= j <= |fs|
      invariant leaves == YearLeaves(fs[..j]) && attrs == YearAttrs(fs[..j])
    {
      var year := fs[j].1;
      if year.Some? && year.value != 0 {
        leaves := leaves + [Leaf(fs[j].0, NatToString(year.value))];
        attrs := attrs + [Attr("", fs[j].0, NatToString(year.value))];
      }
      assert fs[..j + 1] == fs[..j] + [fs[j]];
      YearsSnoc(fs[..j], fs[j]);
      j := j + 1;
    }
    assert fs[..j] == fs;
  }

  /** asDOMDocument() as it runs: the Period's tree, then the rest. */
  method AsDOMDocument(m: Metric) returns (x: Xml)
    ensures x == Dom(m)
  {
    x := RenderAround(DateRange.Dom(m.period), m);
  }

  /** The body of asDOMDocument() after the Period: Category, a loop
      appending each instance's tree, then the loop over the three year keys. */
  method RenderAround(period: Xml, m: Metric) returns (x: Xml)
    ensures x == Render(period, m)
  {
    var children := AppendOptionalLeaf([period], "Category", m.category);
    children := AppendAll(children, OpaqueDoms(m.instances));
    var leaves, attrs := RenderYears(YearFields(m));
    children := children + leaves;
    YearsUnfold(m);
    x := Element("", "ItemPerformance", attrs, children);
  }

  /** The canonical input for a metric, given the inputs its instances were
      built from; a year is given as an integer, an unset one as null. */
  function ToRaw(m: Metric, instInputs: seq<Raw>): Raw
  {
    RArr(Fields(DateRange.ToRaw(m.period), ListOf(instInputs), RStr(m.category),
                YearToRaw(m.pubYrFrom), YearToRaw(m.pubYrTo), YearToRaw(m.pubYr)))
  }

  function YearToRaw(y: Option<nat>): Raw
  {
    if y.Some? then RInt(y.value) else RNull
  }

  /** An input array with all six keys set, in the order Period, Instance,
      Category, PubYrFrom, PubYrTo, PubYr. */
  function Fields(period: Raw, instances: Raw, category: Raw, pubYrFrom: Raw, pubYrTo: Raw, pubYr: Raw): seq<Entry>
  {
    [Entry(StrKey("Period"), period), Entry(StrKey("Instance"), instances), Entry(StrKey("Category"), category),
     Entry(StrKey("PubYrFrom"), pubYrFrom), Entry(StrKey("PubYrTo"), pubYrTo), Entry(StrKey("PubYr"), pubYr)]
  }

  /** Each key of such an array reads its own value. */
  lemma FieldsLookup(period: Raw, instances: Raw, category: Raw, pubYrFrom: Raw, pubYrTo: Raw, pubYr: Raw)
    ensures var es := Fields(period, instances, category, pubYrFrom, pubYrTo, pubYr);
      Lookup(es, StrKey("Period")) == Some(period) && Lookup(es, StrKey("Instance")) == Some(instances)
      && Lookup(es, StrKey("Category")) == Some(category) && Lookup(es, StrKey("PubYrFrom")) == Some(pubYrFrom)
      && Lookup(es, StrKey("PubYrTo")) == Some(pubYrTo) && Lookup(es, StrKey("PubYr")) == Some(pubYr)
  {
    var es := Fields(period, instances, category, pubYrFrom, pubYrTo, pubYr);
    assert DistinctKeys(es);
    LookupDistinct(es, 0);
    LookupDistinct(es, 1);
    LookupDistinct(es, 2);
    LookupDistinct(es, 3);
    LookupDistinct(es, 4);
    LookupDistinct(es, 5);
  }

  /** Where the required fields of the canonical input are found. */
  lemma CanonicalRequired(m: Metric, instInputs: seq<Raw>)
    ensures var es := ToRaw(m, instInputs).entries;
      Isset(es, StrKey("Period")) && Get(es, StrKey("Period")) == DateRange.ToRaw(m.period)
      && Isset(es, StrKey("Instance")) && Get(es, StrKey("Instance")) == ListOf(instInputs)
      && Isset(es, StrKey("Category")) && Get(es, StrKey("Category")) == RStr(m.category)
  {
    FieldsLookup(DateRange.ToRaw(m.period), ListOf(instInputs), RStr(m.category),
                 YearToRaw(m.pubYrFrom), YearToRaw(m.pubYrTo), YearToRaw(m.pubYr));
  }

  /** Where the years of the canonical input are found. */
  lemma CanonicalYears(m: Metric, instInputs: seq<Raw>)
    ensures var es := ToRaw(m, instInputs).entries;
      Coalesce(es, StrKey("PubYrFrom"), RNull) == YearToRaw(m.pubYrFrom)
      && Coalesce(es, StrKey("PubYrTo"), RNull) == YearToRaw(m.pubYrTo)
      && Coalesce(es, StrKey("PubYr"), RNull) == YearToRaw(m.pubYr)
  {
    FieldsLookup(DateRange.ToRaw(m.period), ListOf(instInputs), RStr(m.category),
                 YearToRaw(m.pubYrFrom), YearToRaw(m.pubYrTo), YearToRaw(m.pubYr));
  }

  /** A year read back from its canonical input: a 0 year is unset. */
  lemma YearRoundTrip(y: Option<nat>)
    ensures OptionalYear(YearToRaw(y)) == Ok(if Shown(y) then y else None)
  {
  }

  /** The metric that building from its canonical input gives: a year of 0
      reads back as unset, which renders the same. */
  function Normalised(m: Metric): (n: Metric)
    ensures n.period == m.period && n.category == m.category && n.instances == m.instances
    ensures Shown(m.pubYr) ==> n.pubYr == m.pubYr
    ensures Shown(m.pubYrFrom) ==> n.pubYrFrom == m.pubYrFrom
    ensures Shown(m.pubYrTo) ==> n.pubYrTo == m.pubYrTo
  {
    m.(pubYr := if Shown(m.pubYr) then m.pubYr else None,
       pubYrFrom := if Shown(m.pubYrFrom) then m.pubYrFrom else None,
       pubYrTo := if Shown(m.pubYrTo) then m.pubYrTo else None)
  }

  /** Normalising the years does not change how the metric renders. */
  lemma NormalisedDom(m: Metric)
    ensures Dom(Normalised(m)) == Dom(m)
  {
    var p := DateRange.Dom(m.period);
    assert Render(p, Normalised(m)) == Render(p, m);
  }

  /** What a round trip needs of a metric: a listed category, and instances of
      their class with inputs the environment builds to them. */
  predicate Rebuildable(env: Env, m: Metric, instInputs: seq<Raw>)
  {
    m.category in Categories && |instInputs| == |m.instances|
    && forall i :: 0 <= i < |m.instances| ==>
         m.instances[i].kind == PerformanceCounterKind
         && env.buildOpaque(PerformanceCounterKind, instInputs[i]) == Ok(m.instances[i].dom)
  }

  /** The canonical input reaches the constructor with its instances and its
      period built. */
  lemma BuildCanonical(env: Env, m: Metric, instInputs: seq<Raw>)
    requires Rebuildable(env, m, instInputs)
    ensures Build(env, ToRaw(m, instInputs)) ==
      New(env, RObj(NDateRange(m.period)), RStr(m.category), ListOf(Objects(OpaqueNodes(m.instances))),
          YearToRaw(m.pubYrFrom), YearToRaw(m.pubYrTo), YearToRaw(m.pubYr))
  {
    CanonicalRequired(m, instInputs);
    CanonicalYears(m, instInputs);
    OpaqueListBuilds(env, instInputs, m.instances, PerformanceCounterKind);
    DateRange.RoundTrip(env, m.period);
  }

  /** The constructor, given the metric's own period, category, instances
      and years, stores them, a year of 0 as unset. */
  lemma NewCanonical(env: Env, m: Metric)
    requires m.category in Categories
    requires forall i :: 0 <= i < |m.instances| ==> m.instances[i].kind == PerformanceCounterKind
    ensures New(env, RObj(NDateRange(m.period)), RStr(m.category), ListOf(Objects(OpaqueNodes(m.instances))),
                YearToRaw(m.pubYrFrom), YearToRaw(m.pubYrTo), YearToRaw(m.pubYr)) == Ok(Normalised(m))
  {
    OpaqueListValidatesOneOrMore(env, m.instances, PerformanceCounterKind);
    YearRoundTrip(m.pubYrFrom);
    YearRoundTrip(m.pubYrTo);
    YearRoundTrip(m.pubYr);
    assert OneDateRange(env, RObj(NDateRange(m.period))) == Ok(m.period);
  }

  /** Building from the canonical input gives back the metric, up to years of
      0, which render the same. */
  lemma RoundTrip(env: Env, m: Metric, instInputs: seq<Raw>)
    requires Rebuildable(env, m, instInputs)
    ensures Build(env, ToRaw(m, instInputs)) == Ok(Normalised(m))
    ensures Dom(Normalised(m)) == Dom(m)
  {
    BuildCanonical(env, m, instInputs);
    NewCanonical(env, m);
    NormalisedDom(m);
  }
}
