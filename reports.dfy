/** COUNTER\Reports: the root of a COUNTER document, a list of reports that
    only grows, rendered as the namespaced Reports element. */
module Reports {
  import opened Nodes
  import opened Php
  import opened Xml
  import opened ReportBuilder
  import Report

  const ClassName: string := "COUNTER\\Reports"

  /** The XML Schema instance namespace the schema location is written in. */
  const XSI_NAMESPACE: string := "http://www.w3.org/2001/XMLSchema-instance"

  /** xsi:schemaLocation: the COUNTER namespace, then the Release 4.1 schema. */
  const SCHEMA_LOCATION: string := COUNTER_NAMESPACE + " http://www.niso.org/schemas/sushi/counter4_1.xsd"

  /** build($array) up to the constructor: under a Report key, the value is
      built with buildMultiple; an array without string keys is itself the
      list of report inputs; anything else fails. The constructor then
      checks that everything built is a Report. */
  function BuildList(env: Env, data: Raw): (r: Result<seq<Nodes.Report>>)
    ensures !data.RArr? ==> r == Err(BuildFailed(ClassName, data))
    ensures data.RArr? && !Isset(data.entries, StrKey("Report")) && IsAssociative(data.entries) ==>
      r == Err(BuildFailed(ClassName, data))
  {
    match data
    case RArr(es) =>
      if Isset(es, StrKey("Report")) then
        var reports :- BuildMultiple(Report.Builder(env), Get(es, StrKey("Report")));
        OneOrMoreReports(env, reports)
      else if !IsAssociative(es) then
        var reports :- BuildMultiple(Report.Builder(env), data);
        OneOrMoreReports(env, reports)
      else BuildFailure(ClassName, data)
    case _ => BuildFailure(ClassName, data)
  }

  /** Report inputs that each build give the reports in the same order. */
  lemma BuildEachReport(env: Env, inputs: seq<Raw>, rs: seq<Nodes.Report>)
    requires |inputs| == |rs| && forall i :: 0 <= i < |inputs| ==> Report.Build(env, inputs[i]) == Ok(rs[i])
    ensures BuildMultiple(Report.Builder(env), ListOf(inputs)) == Ok(ListOf(Report.AsObjects(rs)))
    ensures OneOrMoreReports(env, ListOf(Report.AsObjects(rs))) == Ok(rs)
  {
    BuildMultipleOfList(Report.Builder(env), inputs, Report.AsNodes(rs));
    Report.ListValidates(env, rs);
  }

  /** A bare list of report inputs builds to the reports in list order. */
  lemma BuildFromList(env: Env, inputs: seq<Raw>, rs: seq<Nodes.Report>)
    requires |inputs| == |rs| && forall i :: 0 <= i < |inputs| ==> Report.Build(env, inputs[i]) == Ok(rs[i])
    ensures BuildList(env, ListOf(inputs)) == Ok(rs)
  {
    BuildEachReport(env, inputs, rs);
    var es := ListOf(inputs).entries;
    assert !IsAssociative(es) by {
      assert forall i :: 0 <= i < |es| ==> !es[i].key.StrKey?;
    }
    LookupAbsent(es, StrKey("Report"));
  }

  /** The same list under a Report key builds to the same reports. */
  lemma BuildFromReportKey(env: Env, inputs: seq<Raw>, rs: seq<Nodes.Report>)
    requires |inputs| == |rs| && forall i :: 0 <= i < |inputs| ==> Report.Build(env, inputs[i]) == Ok(rs[i])
    ensures BuildList(env, RArr([Entry(StrKey("Report"), ListOf(inputs))])) == Ok(rs)
  {
    BuildEachReport(env, inputs, rs);
    LookupFirst([Entry(StrKey("Report"), ListOf(inputs))], StrKey("Report"), 0);
  }

  /** No Report key lookup succeeds in a list without string keys. */
  lemma {:induction false} LookupAbsent(es: seq<Entry>, k: Key)
    requires k.StrKey? && forall i :: 0 <= i < |es| ==> es[i].key.IntKey?
    ensures Lookup(es, k) == None
  {
    if es != [] {
      LookupAbsent(es[1..], k);
    }
  }

  /** Neither build path rejects an empty list: both an empty array and an
      empty Report list give a document with no reports. */
  lemma BuildEmpty(env: Env)
    ensures BuildList(env, RArr([])) == Ok([])
    ensures BuildList(env, RArr([Entry(StrKey("Report"), RArr([]))])) == Ok([])
  {
    BuildFromList(env, [], []);
    BuildFromReportKey(env, [], []);
    assert ListOf([]) == RArr([]);
  }

  /** The Reports element around a list of reports. */
  function Render(rs: seq<Nodes.Report>): (x: Xml)
    ensures x.Element? && x.ns == COUNTER_NAMESPACE && x.name == "Reports"
    ensures x.attrs == [Attr(XSI_NAMESPACE, "xsi:schemaLocation", SCHEMA_LOCATION)]
  {
    Element(COUNTER_NAMESPACE, "Reports", [Attr(XSI_NAMESPACE, "xsi:schemaLocation", SCHEMA_LOCATION)],
            Report.Doms(rs))
  }

  /** The root holds one Report element per report, in list order. */
  lemma RenderOrder(rs: seq<Nodes.Report>)
    ensures ChildNames(Render(rs)) == Repeat("Report", |rs|)
    ensures forall i :: 0 <= i < |rs| ==> Render(rs).children[i] == Report.Dom(rs[i])
  {
  }

  /** Appending a report appends its tree at the end of the root and leaves
      the earlier trees in place. */
  lemma RenderAppend(rs: seq<Nodes.Report>, r: Nodes.Report)
    ensures Render(rs + [r]).children == Render(rs).children + [Report.Dom(r)]
  {
  }

  class Reports {
    /** The reports, in insertion order. */
    var report: seq<Nodes.Report>

    /** An object holding the given, already validated, reports. */
    constructor (rs: seq<Nodes.Report>)
      ensures report == rs
    {
      report := rs;
    }

    /** __construct($reports): every element must be a Report object; a
        single Report is wrapped into a one-element list. */
    static method New(env: Env, reports: Raw) returns (r: Result<Reports>)
      ensures r.Ok? <==> OneOrMoreReports(env, reports).Ok?
      ensures r.Ok? ==> fresh(r.value) && r.value.report == OneOrMoreReports(env, reports).value
      ensures r.Err? ==> r.error == OneOrMoreReports(env, reports).error
    {
      var rs := OneOrMoreReports(env, reports);
      if rs.Err? {
        return Err(rs.error);
      }
      var o := new Reports(rs.value);
      return Ok(o);
    }

    /** build($array). */
    static method Build(env: Env, data: Raw) returns (r: Result<Reports>)
      ensures r.Ok? <==> BuildList(env, data).Ok?
      ensures r.Ok? ==> fresh(r.value) && r.value.report == BuildList(env, data).value
      ensures r.Err? ==> r.error == BuildList(env, data).error
    {
      var rs := BuildList(env, data);
      if rs.Err? {
        return Err(rs.error);
      }
      var o := new Reports(rs.value);
      return Ok(o);
    }

    /** addReport($report): a Report object is appended at the end; anything
        else fails and leaves the list as it was. */
    method AddReport(env: Env, x: Raw) returns (e: Option<Error>)
      modifies this
      ensures e.None? <==> OneReport(env, x).Ok?
      ensures e.None? ==> report == old(report) + [OneReport(env, x).value]
      ensures e.Some? ==> report == old(report) && e.value == OneReport(env, x).error
    {
      var r := OneReport(env, x);
      if r.Err? {
        return Some(r.error);
      }
      report := report + [r.value];
      return None;
    }

    /** getReports(): the stored reports, in insertion order. */
    function GetReports(): (rs: seq<Nodes.Report>)
      reads this
      ensures rs == report
    {
      report
    }

    /** asDOMDocument() of the stored reports. */
    function Dom(): (x: Xml)
      reads this
      ensures x == Render(report)
    {
      Render(report)
    }

    /** asDOMDocument() as it runs: the namespaced root with its schema
        location, then a loop appending each report's tree. */
    method AsDOMDocument() returns (x: Xml)
      ensures x == Dom()
    {
      var children: seq<Xml> := [];
      var doms := Report.Doms(report);
      var i := 0;
      while i < |report|
        invariant 0 <= i <= |report|
        invariant children == doms[..i]
      {
        var d := Report.AsDOMDocument(report[i]);
        children := children + [d];
        i := i + 1;
        assert doms[..i] == doms[..i - 1] + [doms[i - 1]];
      }
      assert doms[..i] == doms;
      x := Element(COUNTER_NAMESPACE, "Reports", [Attr(XSI_NAMESPACE, "xsi:schemaLocation", SCHEMA_LOCATION)], children);
    }
  }
}
