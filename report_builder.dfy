/** The shared base of every COUNTER class: kind and scalar validators, the
    key-shape test, the one-or-many build dispatcher, the closed enumerations
    and the default build failure. */
module ReportBuilder {
  import opened Nodes
  import opened Php
  import opened Xml
  import opened Dates

  const COUNTER_NAMESPACE: string := "http://www.niso.org/schemas/counter"

  /** The exceptions the core throws, each with what its message names. */
  datatype Error =
    | InvalidObject(expected: string)               // a null where an object is expected
    | UnparsableArray(expected: string)             // an array where an object is expected
    | UnparsableString(expected: string)            // a string that is not a parseable date
    | InvalidClass(expected: string, got: string)   // an object of another class
    | NotAnObject(expected: string, got: string)    // an int or bool: get_class() raises a TypeError
    | InvalidPositiveInteger(given: Raw)
    | InvalidString(got: string)                    // names gettype() of the value
    | InvalidStringArray(got: string)
    | InvalidType(value: string)                    // an enumerated type outside its list
    | InvalidCategory(value: string)
    | BuildFailed(className: string, data: Raw)     // no accepted input shape
    | Opaque(message: string)                       // thrown by a class outside the core

  datatype Result<T> = Ok(value: T) | Err(error: Error) {
    predicate IsFailure() { Err? }
    function PropagateFailure<U>(): Result<U> requires Err? { Err(error) }
    function Extract(): T requires Ok? { value }
  }

  /** What the core takes from its environment: date_create(), filter_var(...,
      FILTER_VALIDATE_EMAIL), the clock, and the build methods of the classes
      outside the core (each returns the tree the built object renders to). */
  datatype Env = Env(
    parseDate: string -> Option<Date>,
    isEmail: string -> bool,
    now: Instant,
    buildOpaque: (OpaqueKind, Raw) -> Result<Xml>)

  /** The class name validateOneOf compares against: a bare name is in the
      COUNTER namespace and a leading backslash is dropped. */
  function ExpectedClassName(className: string): string
  {
    if '\\' !in className then Counter(className)
    else if className[0] == '\\' then className[1..]
    else className
  }

  /** The three spellings of a COUNTER class name name the same class. */
  lemma ClassNameSpellings(short: string)
    requires '\\' !in short
    ensures ExpectedClassName(short) == Counter(short)
    ensures ExpectedClassName(Counter(short)) == Counter(short)
    ensures ExpectedClassName("\\" + Counter(short)) == Counter(short)
  {
    assert Counter(short)[7] == '\\';
    assert ("\\" + Counter(short))[1..] == Counter(short);
  }

  predicate InstanceOf(v: Raw, cls: string)
  {
    v.RObj? && ClassOf(v.node) == cls
  }

  /** validateOneOf($object, $className). */
  function ValidateOneOf(env: Env, v: Raw, className: string): (r: Result<Raw>)
    ensures r.Ok? ==> InstanceOf(r.value, ExpectedClassName(className))
    ensures r.Ok? && !v.RStr? ==> r.value == v
    ensures r.Ok? <==>
      InstanceOf(v, ExpectedClassName(className))
      || (className == "\\DateTime" && v.RStr? && env.parseDate(v.s).Some?)
    ensures v.RStr? && r.Ok? ==> r.value == RObj(NDateTime(env.parseDate(v.s).value))
    ensures v.RNull? ==> r == Err(InvalidObject(ExpectedClassName(className)))
    ensures v.RArr? ==> r == Err(UnparsableArray(ExpectedClassName(className)))
    ensures v.RStr? && r.Err? ==> r.error == UnparsableString(ExpectedClassName(className))
    ensures v.RObj? && r.Err? ==> r.error == InvalidClass(ExpectedClassName(className), ClassOf(v.node))
  {
    var expected := ExpectedClassName(className);
    match v
    case RNull => Err(InvalidObject(expected))
    case RArr(_) => Err(UnparsableArray(expected))
    case RStr(s) =>
      if className == "\\DateTime" && env.parseDate(s).Some? then Ok(RObj(NDateTime(env.parseDate(s).value)))
      else Err(UnparsableString(expected))
    case RObj(n) =>
      if ClassOf(n) == expected then Ok(v) else Err(InvalidClass(expected, ClassOf(n)))
    case _ => Err(NotAnObject(expected, GetType(v)))
  }

  /** validateOneOf($value, '\DateTime'), keeping the date of the \DateTime it
      returns: a \DateTime object as it is, or a string date_create() parses. */
  function ValidateDate(env: Env, v: Raw): (r: Result<Date>)
    ensures r.Ok? <==> ValidateOneOf(env, v, "\\DateTime").Ok?
    ensures r.Ok? ==> ValidateOneOf(env, v, "\\DateTime").value == RObj(NDateTime(r.value))
    ensures r.Err? ==> r.error == ValidateOneOf(env, v, "\\DateTime").error
    ensures r.Ok? <==> (v.RObj? && v.node.NDateTime?) || (v.RStr? && env.parseDate(v.s).Some?)
    ensures v.RObj? && v.node.NDateTime? ==> r == Ok(v.node.date)
    ensures v.RStr? && r.Ok? ==> r.value == env.parseDate(v.s).value
  {
    DateTimeClass();
    match ValidateOneOf(env, v, "\\DateTime")
    case Err(e) => Err(e)
    case Ok(x) => Ok(x.node.date)
  }

  /** The error validateOneOf raises first over `vs`, in order; None when all pass. */
  function FirstInvalid(env: Env, vs: seq<Raw>, className: string): (r: Option<Error>)
    ensures r.None? <==> forall i :: 0 <= i < |vs| ==> ValidateOneOf(env, vs[i], className).Ok?
    ensures forall i :: (0 <= i < |vs| && ValidateOneOf(env, vs[i], className).Err?
                         && (forall j :: 0 <= j < i ==> ValidateOneOf(env, vs[j], className).Ok?))
                        ==> r == Some(ValidateOneOf(env, vs[i], className).error)
  {
    var checks := seq(|vs|, i requires 0 <= i < |vs| => ValidateOneOf(env, vs[i], className));
    assert forall i :: 0 <= i < |vs| ==> checks[i] == ValidateOneOf(env, vs[i], className);
    FirstError(checks)
  }

  /** The first error in a list of outcomes; None when all succeed. */
  function FirstError<T>(rs: seq<Result<T>>): (r: Option<Error>)
    ensures r.None? <==> forall i :: 0 <= i < |rs| ==> rs[i].Ok?
    ensures forall i :: (0 <= i < |rs| && rs[i].Err? && (forall j :: 0 <= j < i ==> rs[j].Ok?))
                        ==> r == Some(rs[i].error)
  {
    if rs == [] then None
    else if rs[0].Err? then Some(rs[0].error)
    else
      var r := FirstError(rs[1..]);
      assert forall i :: 1 <= i < |rs| ==> rs[i] == rs[1..][i - 1];
      r
  }

  /** validateOneOrMoreOf($objects, $className): an array is checked element by
      element and returned as it is (an empty array passes); any other value is
      checked and wrapped in a one-element list. */
  function ValidateOneOrMoreOf(env: Env, v: Raw, className: string): (r: Result<seq<Raw>>)
    ensures v.RArr? ==> (r.Ok? <==> forall i :: 0 <= i < |v.entries| ==> ValidateOneOf(env, v.entries[i].value, className).Ok?)
    ensures v.RArr? && r.Ok? ==> r.value == Values(v.entries)
    ensures !v.RArr? ==> (r.Ok? <==> ValidateOneOf(env, v, className).Ok?)
    ensures !v.RArr? && r.Ok? ==> r.value == [ValidateOneOf(env, v, className).value]
  {
    if v.RArr? then
      match FirstInvalid(env, Values(v.entries), className)
      case Some(e) => Err(e)
      case None => Ok(Values(v.entries))
    else
      var x :- ValidateOneOf(env, v, className);
      Ok([x])
  }

  /** The foreach of validateOneOrMoreOf. */
  method ValidateOneOrMoreOfLoop(env: Env, objects: Raw, className: string) returns (r: Result<seq<Raw>>)
    ensures r == ValidateOneOrMoreOf(env, objects, className)
  {
    if objects.RArr? {
      var es := objects.entries;
      var i := 0;
      while i < |es|
        invariant 0 <= i <= |es|
        invariant forall j :: 0 <= j < i ==> ValidateOneOf(env, es[j].value, className).Ok?
      {
        var c := ValidateOneOf(env, es[i].value, className);
        if c.Err? {
          assert FirstInvalid(env, Values(es), className) == Some(c.error);
          return Err(c.error);
        }
        i := i + 1;
      }
      return Ok(Values(es));
    }
    var x := ValidateOneOf(env, objects, className);
    if x.Err? {
      return Err(x.error);
    }
    return Ok([x.value]);
  }

  /** When every element is valid, every element is an object of the expected class. */
  lemma OneOrMoreInstances(env: Env, v: Raw, className: string)
    requires className != "\\DateTime"
    requires ValidateOneOrMoreOf(env, v, className).Ok?
    ensures var xs := ValidateOneOrMoreOf(env, v, className).value;
      forall i :: 0 <= i < |xs| ==> InstanceOf(xs[i], ExpectedClassName(className))
  {
  }

  /** validateZeroOrMoreOf: an empty value gives the empty list unchecked. */
  function ValidateZeroOrMoreOf(env: Env, v: Raw, className: string): (r: Result<seq<Raw>>)
    ensures !Truthy(v) ==> r == Ok([])
    ensures Truthy(v) ==> r == ValidateOneOrMoreOf(env, v, className)
  {
    if !Truthy(v) then Ok([]) else ValidateOneOrMoreOf(env, v, className)
  }

  /** validateZeroOrOneOf: an empty value gives None unchecked. */
  function ValidateZeroOrOneOf(env: Env, v: Raw, className: string): (r: Result<Option<Raw>>)
    ensures !Truthy(v) ==> r == Ok(None)
    ensures Truthy(v) ==> (r.Ok? <==> ValidateOneOf(env, v, className).Ok?)
    ensures Truthy(v) && r.Ok? ==> r.value == Some(ValidateOneOf(env, v, className).value)
  {
    if !Truthy(v) then Ok(None)
    else
      var x :- ValidateOneOf(env, v, className);
      Ok(Some(x))
  }

  /** validatePositiveInteger: intval() of the value, rejected when negative. */
  function ValidatePositiveInteger(v: Raw): (r: Result<nat>)
    ensures r.Ok? <==> IntVal(v) >= 0
    ensures r.Ok? ==> r.value == IntVal(v)
  {
    var n := IntVal(v);
    if n < 0 then Err(InvalidPositiveInteger(v)) else Ok(n)
  }

  /** validateString: the identity on strings, a failure on anything else. */
  function ValidateString(v: Raw): (r: Result<string>)
    ensures r.Ok? <==> v.RStr?
    ensures r.Ok? ==> r.value == v.s
    ensures r.Err? ==> r.error == InvalidString(GetType(v))
  {
    if v.RStr? then Ok(v.s) else Err(InvalidString(GetType(v)))
  }

  /** The first value that is not a string, if any. */
  function FirstNonString(vs: seq<Raw>): (r: Option<Raw>)
    ensures r.None? <==> forall i :: 0 <= i < |vs| ==> vs[i].RStr?
    ensures forall i :: (0 <= i < |vs| && !vs[i].RStr? && (forall j :: 0 <= j < i ==> vs[j].RStr?))
                        ==> r == Some(vs[i])
  {
    if vs == [] then None
    else if !vs[0].RStr? then Some(vs[0])
    else
      var r := FirstNonString(vs[1..]);
      assert forall i :: 1 <= i < |vs| ==> vs[i] == vs[1..][i - 1];
      r
  }

  function Strings(vs: seq<Raw>): (ss: seq<string>)
    requires forall i :: 0 <= i < |vs| ==> vs[i].RStr?
    ensures |ss| == |vs| && forall i :: 0 <= i < |vs| ==> vs[i] == RStr(ss[i])
  {
    seq(|vs|, i requires 0 <= i < |vs| => vs[i].s)
  }

  /** validateStrings: an array of strings as it is, a string as a one-element
      list, an empty value as the empty list; anything else fails. */
  function ValidateStrings(v: Raw): (r: Result<seq<string>>)
    ensures v.RArr? ==> (r.Ok? <==> forall i :: 0 <= i < |v.entries| ==> v.entries[i].value.RStr?)
    ensures v.RArr? && r.Ok? ==> |r.value| == |v.entries|
    ensures v.RArr? && r.Ok? ==> forall i :: 0 <= i < |v.entries| ==> v.entries[i].value == RStr(r.value[i])
    ensures v.RStr? ==> r == Ok([v.s])
    ensures !v.RArr? && !v.RStr? ==> (r.Ok? <==> !Truthy(v))
    ensures !v.RArr? && !v.RStr? && r.Ok? ==> r.value == []
  {
    match v
    case RArr(es) =>
      (match FirstNonString(Values(es))
       case Some(x) => Err(InvalidString(GetType(x)))
       case None => Ok(Strings(Values(es))))
    case RStr(s) => Ok([s])
    case _ => if Truthy(v) then Err(InvalidStringArray(GetType(v))) else Ok([])
  }

  /** The foreach of validateStrings. */
  method ValidateStringsLoop(v: Raw) returns (r: Result<seq<string>>)
    ensures r == ValidateStrings(v)
  {
    if v.RArr? {
      var es := v.entries;
      var i := 0;
      while i < |es|
        invariant 0 <= i <= |es|
        invariant forall j :: 0 <= j < i ==> es[j].value.RStr?
      {
        var c := ValidateString(es[i].value);
        if c.Err? {
          assert FirstNonString(Values(es)) == Some(es[i].value);
          return c.PropagateFailure();
        }
        i := i + 1;
      }
      return Ok(Strings(Values(es)));
    }
    if v.RStr? {
      return Ok([v.s]);
    }
    if Truthy(v) {
      return Err(InvalidStringArray(GetType(v)));
    }
    return Ok([]);
  }

  /** A list of strings as loose values. */
  function StrValues(ss: seq<string>): (vs: seq<Raw>)
    ensures |vs| == |ss| && forall i :: 0 <= i < |ss| ==> vs[i] == RStr(ss[i])
  {
    seq(|ss|, i requires 0 <= i < |ss| => RStr(ss[i]))
  }

  /** validateStrings gives back the strings of a list of strings. */
  lemma StringListValidates(ss: seq<string>)
    ensures ValidateStrings(ListOf(StrValues(ss))) == Ok(ss)
  {
    var es := ListOf(StrValues(ss)).entries;
    assert Values(es) == StrValues(ss);
    assert Strings(StrValues(ss)) == ss;
  }

  /** count(array_filter(array_keys($array), 'is_string')). */
  function StringKeyCount(es: seq<Entry>): (n: nat)
    ensures n > 0 <==> exists i :: 0 <= i < |es| && es[i].key.StrKey?
    ensures n <= |es|
  {
    if es == [] then 0
    else
      var n := (if es[0].key.StrKey? then 1 else 0) + StringKeyCount(es[1..]);
      assert forall i :: 1 <= i < |es| ==> es[i] == es[1..][i - 1];
      n
  }

  /** isAssociative: at least one key is a string. */
  predicate IsAssociative(es: seq<Entry>)
    ensures IsAssociative(es) <==> exists i :: 0 <= i < |es| && es[i].key.StrKey?
    ensures !IsAssociative(es) <==> forall i :: 0 <= i < |es| ==> es[i].key.IntKey?
  {
    StringKeyCount(es) > 0
  }

  /** Build each value in order; the first failure is the result. */
  function BuildEach(build: Raw -> Result<Node>, vs: seq<Raw>): (r: Result<seq<Node>>)
    ensures r.Ok? <==> forall i :: 0 <= i < |vs| ==> build(vs[i]).Ok?
    ensures r.Ok? ==> |r.value| == |vs| && forall i :: 0 <= i < |vs| ==> r.value[i] == build(vs[i]).value
    ensures forall i :: (0 <= i < |vs| && build(vs[i]).Err? && (forall j :: 0 <= j < i ==> build(vs[j]).Ok?))
                        ==> r == Err(build(vs[i]).error)
  {
    if vs == [] then Ok([])
    else
      var n :- build(vs[0]);
      assert forall i :: 1 <= i < |vs| ==> vs[i] == vs[1..][i - 1];
      var ns :- BuildEach(build, vs[1..]);
      Ok([n] + ns)
  }

  function Objects(ns: seq<Node>): (vs: seq<Raw>)
    ensures |vs| == |ns| && forall i :: 0 <= i < |ns| ==> vs[i] == RObj(ns[i])
  {
    seq(|ns|, i requires 0 <= i < |ns| => RObj(ns[i]))
  }

  /** buildMultiple($classname, $array): a non-array gives [], an associative
      array one built object, any other array one object per element in order. */
  function BuildMultiple(build: Raw -> Result<Node>, v: Raw): (r: Result<Raw>)
    ensures !v.RArr? ==> r == Ok(RArr([]))
    ensures v.RArr? && IsAssociative(v.entries) ==> (r.Ok? <==> build(v).Ok?)
    ensures v.RArr? && IsAssociative(v.entries) && r.Ok? ==> r.value == RObj(build(v).value)
    ensures v.RArr? && !IsAssociative(v.entries) ==>
      (r.Ok? <==> forall i :: 0 <= i < |v.entries| ==> build(v.entries[i].value).Ok?)
    ensures v.RArr? && !IsAssociative(v.entries) && r.Ok? ==>
      r.value == ListOf(Objects(BuildEach(build, Values(v.entries)).value))
  {
    if !v.RArr? then Ok(RArr([]))
    else if IsAssociative(v.entries) then
      var n :- build(v);
      Ok(RObj(n))
    else
      var ns :- BuildEach(build, Values(v.entries));
      Ok(ListOf(Objects(ns)))
  }

  /** The foreach of buildMultiple, appending to `$elements`. */
  method BuildMultipleLoop(build: Raw -> Result<Node>, v: Raw) returns (r: Result<Raw>)
    ensures r == BuildMultiple(build, v)
  {
    if !v.RArr? {
      return Ok(RArr([]));
    }
    if IsAssociative(v.entries) {
      var n := build(v);
      if n.Err? {
        return Err(n.error);
      }
      return Ok(RObj(n.value));
    }
    var vs := Values(v.entries);
    var elements: seq<Node> := [];
    var i := 0;
    while i < |vs|
      invariant 0 <= i <= |vs| && |elements| == i
      invariant forall j :: 0 <= j < i ==> build(vs[j]).Ok? && elements[j] == build(vs[j]).value
    {
      var n := build(vs[i]);
      if n.Err? {
        return Err(n.error);
      }
      elements := elements + [n.value];
      i := i + 1;
    }
    assert elements == BuildEach(build, vs).value;
    return Ok(ListOf(Objects(elements)));
  }

  /** A list of built objects passes the one-or-more check for their class. */
  lemma BuiltListValidates(env: Env, ns: seq<Node>, className: string)
    requires forall i :: 0 <= i < |ns| ==> ClassOf(ns[i]) == ExpectedClassName(className)
    ensures ValidateOneOrMoreOf(env, ListOf(Objects(ns)), className) == Ok(Objects(ns))
  {
    var es := ListOf(Objects(ns)).entries;
    assert Values(es) == Objects(ns);
  }

  /** A list of inputs that each build to the given object builds, through
      buildMultiple, to the list of those objects in the same order. */
  lemma BuildMultipleOfList(build: Raw -> Result<Node>, vs: seq<Raw>, ns: seq<Node>)
    requires |vs| == |ns| && forall i :: 0 <= i < |vs| ==> build(vs[i]) == Ok(ns[i])
    ensures BuildMultiple(build, ListOf(vs)) == Ok(ListOf(Objects(ns)))
  {
    var es := ListOf(vs).entries;
    assert !IsAssociative(es) by {
      assert forall i :: 0 <= i < |es| ==> !es[i].key.StrKey?;
    }
    assert Values(es) == vs;
    assert BuildEach(build, vs).value == ns;
  }

  /** A list of built objects of a class passes the zero-or-more check as the
      list of those objects, the empty list included. */
  lemma BuiltListValidatesZeroOrMore(env: Env, ns: seq<Node>, className: string)
    requires forall i :: 0 <= i < |ns| ==> ClassOf(ns[i]) == ExpectedClassName(className)
    ensures ValidateZeroOrMoreOf(env, ListOf(Objects(ns)), className) == Ok(Objects(ns))
  {
    if ns != [] {
      BuiltListValidates(env, ns, className);
    }
  }

  /** getItemDataTypes(). */
  const ItemDataTypes: seq<string> := ["Journal", "Database", "Platform", "Book", "Collection", "Multimedia", "Article"]
  /** getIdentifierTypes(). */
  const IdentifierTypes: seq<string> := ["Online_ISSN", "Print_ISSN", "Online_ISBN", "Print_ISBN", "DOI", "Proprietary"]
  /** getContributorIdentifierTypes(). */
  const ContributorIdentifierTypes: seq<string> := ["ORCID", "ISNI", "Proprietary"]
  /** getDateTypes(). */
  const DateTypes: seq<string> := ["PubDate", "FirstAccessedOnline", "Proprietary"]
  /** getAttributeTypes(). */
  const AttributeTypes: seq<string> := ["ArticleVersion", "ArticleType", "QualificationName", "QualificationLevel"]
  /** getMetricTypes(). */
  const MetricTypes: seq<string> := [
    "abstract", "audio", "data_set", "ft_epub", "ft_html", "ft_html_mobile", "ft_pdf",
    "ft_pdf_mobile", "ft_ps", "ft_ps_mobile", "ft_total", "image", "multimedia", "no_license",
    "other", "podcast", "record_view", "reference", "result_click", "search_fed", "search_reg",
    "sectioned_html", "toc", "turnaway", "video"]
  /** getCategories(). */
  const Categories: seq<string> := ["Requests", "Searches", "Access_denied"]

  /** Every enumerated value is a non-empty string other than "0", so a stored
      enumerated field is always truthy. */
  lemma EnumerationsTruthy()
    ensures forall s <- ItemDataTypes + ContributorIdentifierTypes + DateTypes + Categories :: TruthyString(s)
  {
  }

  /** `if ($s) { append <name>$s</name> }`: an empty or "0" string gives no element. */
  function OptionalLeaf(name: string, s: string): (xs: seq<Xml>)
    ensures |xs| == (if TruthyString(s) then 1 else 0)
    ensures TruthyString(s) ==> xs == [Leaf(name, s)]
  {
    if TruthyString(s) then [Leaf(name, s)] else []
  }

  /** An optional leaf is named `name` when the value is truthy and absent otherwise. */
  lemma OptionalLeafNames(name: string, s: string)
    ensures Names(OptionalLeaf(name, s)) == if TruthyString(s) then [name] else []
  {
  }

  /** An optional leaf as asDOMDocument() writes it: appended only when the
      value is truthy. */
  method AppendOptionalLeaf(children: seq<Xml>, name: string, s: string) returns (out: seq<Xml>)
    ensures out == children + OptionalLeaf(name, s)
  {
    out := children;
    if TruthyString(s) {
      out := out + [Leaf(name, s)];
    }
  }

  /** The trees of a list of opaque objects, in order. */
  function OpaqueDoms(os: seq<Opaque>): (xs: seq<Xml>)
    ensures |xs| == |os| && forall i :: 0 <= i < |os| ==> xs[i] == os[i].dom
  {
    seq(|os|, i requires 0 <= i < |os| => os[i].dom)
  }

  /** The length of a class name and its character after the namespace
      prefix, which tell the class names of the model apart. */
  function NameKey(s: string): (int, char)
  {
    (|s|, if |s| > 8 then s[8] else '\\')
  }

  /** The key of each object's class name. */
  function ClassKey(n: Node): (int, char)
  {
    match n
    case NReport(_) => (14, 'R')
    case NVendor(_) => (14, 'V')
    case NCustomer(_) => (16, 'C')
    case NConsortium(_) => (18, 'C')
    case NContact(_) => (15, 'C')
    case NMetric(_) => (14, 'M')
    case NDateRange(_) => (17, 'D')
    case NParentItem(_) => (18, 'P')
    case NItemContributor(_) => (23, 'I')
    case NItemContributorId(_) => (25, 'I')
    case NItemDate(_) => (16, 'I')
    case NOpaque(o) => OpaqueKey(o.kind)
    case NDateTime(_) => (8, '\\')
  }

  function OpaqueKey(k: OpaqueKind): (int, char)
  {
    match k
    case ReportItemsKind => (19, 'R')
    case PerformanceCounterKind => (26, 'P')
    case IdentifierKind => (18, 'I')
    case ItemAttributeKind => (21, 'I')
  }

  /** Each object's class name has its class's key. */
  lemma ClassNameKey(n: Node)
    ensures NameKey(ClassOf(n)) == ClassKey(n)
  {
  }

  /** validateOneOf(.., 'Report') checks for COUNTER\Report, the class of exactly
      the Report objects. */
  lemma ReportClass(n: Node)
    ensures ExpectedClassName("Report") == Counter("Report")
    ensures ClassOf(n) == Counter("Report") <==> n.NReport?
  {
    ClassNameSpellings("Report");
    ClassNameKey(n);
  }

  /** validateOneOf(.., 'Vendor') checks for COUNTER\Vendor, the class of exactly
      the Vendor objects. */
  lemma VendorClass(n: Node)
    ensures ExpectedClassName("Vendor") == Counter("Vendor")
    ensures ClassOf(n) == Counter("Vendor") <==> n.NVendor?
  {
    ClassNameSpellings("Vendor");
    ClassNameKey(n);
  }

  /** validateOneOf(.., 'Customer') checks for COUNTER\Customer, the class of exactly
      the Customer objects. */
  lemma CustomerClass(n: Node)
    ensures ExpectedClassName("Customer") == Counter("Customer")
    ensures ClassOf(n) == Counter("Customer") <==> n.NCustomer?
  {
    ClassNameSpellings("Customer");
    ClassNameKey(n);
  }

  /** validateOneOf(.., 'Consortium') checks for COUNTER\Consortium, the class of exactly
      the Consortium objects. */
  lemma ConsortiumClass(n: Node)
    ensures ExpectedClassName("Consortium") == Counter("Consortium")
    ensures ClassOf(n) == Counter("Consortium") <==> n.NConsortium?
  {
    ClassNameSpellings("Consortium");
    ClassNameKey(n);
  }

  /** validateOneOf(.., 'Contact') checks for COUNTER\Contact, the class of exactly
      the Contact objects. */
  lemma ContactClass(n: Node)
    ensures ExpectedClassName("Contact") == Counter("Contact")
    ensures ClassOf(n) == Counter("Contact") <==> n.NContact?
  {
    ClassNameSpellings("Contact");
    ClassNameKey(n);
  }

  /** validateOneOf(.., 'DateRange') checks for COUNTER\DateRange, the class of exactly
      the DateRange objects. */
  lemma DateRangeClass(n: Node)
    ensures ExpectedClassName("DateRange") == Counter("DateRange")
    ensures ClassOf(n) == Counter("DateRange") <==> n.NDateRange?
  {
    ClassNameSpellings("DateRange");
    ClassNameKey(n);
  }

  /** validateOneOf(.., 'ItemContributor') checks for COUNTER\ItemContributor, the class of exactly
      the ItemContributor objects. */
  lemma ItemContributorClass(n: Node)
    ensures ExpectedClassName("ItemContributor") == Counter("ItemContributor")
    ensures ClassOf(n) == Counter("ItemContributor") <==> n.NItemContributor?
  {
    ClassNameSpellings("ItemContributor");
    ClassNameKey(n);
  }

  /** validateOneOf(.., 'ItemContributorId') checks for COUNTER\ItemContributorId, the class of exactly
      the ItemContributorId objects. */
  lemma ItemContributorIdClass(n: Node)
    ensures ExpectedClassName("ItemContributorId") == Counter("ItemContributorId")
    ensures ClassOf(n) == Counter("ItemContributorId") <==> n.NItemContributorId?
  {
    ClassNameSpellings("ItemContributorId");
    ClassNameKey(n);
  }

  /** validateOneOf(.., 'ItemDate') checks for COUNTER\ItemDate, the class of exactly
      the ItemDate objects. */
  lemma ItemDateClass(n: Node)
    ensures ExpectedClassName("ItemDate") == Counter("ItemDate")
    ensures ClassOf(n) == Counter("ItemDate") <==> n.NItemDate?
  {
    ClassNameSpellings("ItemDate");
    ClassNameKey(n);
  }

  /** validateOneOf(.., '\\DateTime') checks for DateTime, the class of
      exactly the dates. */
  lemma DateTimeClass()
    ensures ExpectedClassName("\\DateTime") == "DateTime"
    ensures forall n :: ClassOf(n) == "DateTime" <==> n.NDateTime?
  {
  }

  /** An opaque class is checked for in the COUNTER namespace, and its name
      tells the opaque objects of that kind from every other object. */
  lemma OpaqueClass(n: Node, kind: OpaqueKind)
    ensures ExpectedClassName(OpaqueClassName(kind)) == Counter(OpaqueClassName(kind))
    ensures ClassOf(n) == Counter(OpaqueClassName(kind)) <==> n.NOpaque? && n.obj.kind == kind
  {
    OpaqueClassNameBare(kind);
    ClassNameSpellings(OpaqueClassName(kind));
    var c := ClassOf(n);
    if c == Counter(OpaqueClassName(kind)) {
      assert c[8..] == OpaqueClassName(kind);
      if n.NOpaque? {
        assert c[8..] == OpaqueClassName(n.obj.kind);
      }
    }
  }

  /** The build() of a class outside the core, as a builder of objects. */
  function OpaqueBuilder(env: Env, kind: OpaqueKind): Raw -> Result<Node>
  {
    (v: Raw) => match env.buildOpaque(kind, v)
                case Ok(dom) => Ok(NOpaque(Nodes.Opaque(kind, dom)))
                case Err(e) => Err(e)
  }

  /** The opaque classes have bare names, which validateOneOf places in the
      COUNTER namespace. */
  lemma OpaqueClassNameBare(kind: OpaqueKind)
    ensures '\\' !in OpaqueClassName(kind)
  {
  }

  /** The opaque objects of a validated list. */
  function OpaquesOf(xs: seq<Raw>, kind: OpaqueKind): (os: seq<Nodes.Opaque>)
    requires forall i :: 0 <= i < |xs| ==> InstanceOf(xs[i], ExpectedClassName(OpaqueClassName(kind)))
    ensures |os| == |xs| && forall i :: 0 <= i < |xs| ==> xs[i] == RObj(NOpaque(os[i])) && os[i].kind == kind
  {
    assert forall i :: 0 <= i < |xs| ==> xs[i].RObj? && xs[i].node.NOpaque? && xs[i].node.obj.kind == kind by {
      forall i | 0 <= i < |xs| ensures xs[i].RObj? && xs[i].node.NOpaque? && xs[i].node.obj.kind == kind {
        assert InstanceOf(xs[i], ExpectedClassName(OpaqueClassName(kind)));
        OpaqueClass(xs[i].node, kind);
      }
    }
    seq(|xs|, i requires 0 <= i < |xs| => xs[i].node.obj)
  }

  /** A list of opaque objects as objects. */
  function OpaqueNodes(os: seq<Nodes.Opaque>): (ns: seq<Node>)
    ensures |ns| == |os| && forall i :: 0 <= i < |os| ==> ns[i] == NOpaque(os[i])
  {
    seq(|os|, i requires 0 <= i < |os| => NOpaque(os[i]))
  }

  /** Objects all of one class are what the checks for that class expect. */
  lemma OpaqueNodesClass(os: seq<Nodes.Opaque>, kind: OpaqueKind)
    requires forall i :: 0 <= i < |os| ==> os[i].kind == kind
    ensures forall i :: 0 <= i < |os| ==> ClassOf(OpaqueNodes(os)[i]) == ExpectedClassName(OpaqueClassName(kind))
  {
    forall i | 0 <= i < |os| ensures ClassOf(OpaqueNodes(os)[i]) == ExpectedClassName(OpaqueClassName(kind)) {
      OpaqueClass(OpaqueNodes(os)[i], kind);
    }
  }

  /** A list of opaque objects of one class passes the zero-or-more check for
      that class and reads back as the same objects. */
  lemma OpaqueListValidates(env: Env, os: seq<Nodes.Opaque>, kind: OpaqueKind)
    requires forall i :: 0 <= i < |os| ==> os[i].kind == kind
    ensures ZeroOrMoreOpaques(env, ListOf(Objects(OpaqueNodes(os))), kind) == Ok(os)
  {
    OpaqueNodesClass(os, kind);
    BuiltListValidatesZeroOrMore(env, OpaqueNodes(os), OpaqueClassName(kind));
    var r := ZeroOrMoreOpaques(env, ListOf(Objects(OpaqueNodes(os))), kind);
    var xs := Objects(OpaqueNodes(os));
    assert r.value == os by {
      assert forall i :: 0 <= i < |xs| ==> RObj(NOpaque(r.value[i])) == xs[i] == RObj(NOpaque(os[i]));
    }
  }

  /** Inputs that the environment builds to given opaque objects build,
      through buildMultiple, to the list of those objects. */
  lemma OpaqueListBuilds(env: Env, inputs: seq<Raw>, os: seq<Nodes.Opaque>, kind: OpaqueKind)
    requires |inputs| == |os|
    requires forall i :: 0 <= i < |os| ==> os[i].kind == kind && env.buildOpaque(kind, inputs[i]) == Ok(os[i].dom)
    ensures BuildMultiple(OpaqueBuilder(env, kind), ListOf(inputs)) == Ok(ListOf(Objects(OpaqueNodes(os))))
  {
    forall i | 0 <= i < |inputs| ensures OpaqueBuilder(env, kind)(inputs[i]) == Ok(OpaqueNodes(os)[i]) {
    }
    BuildMultipleOfList(OpaqueBuilder(env, kind), inputs, OpaqueNodes(os));
  }

  /** validateZeroOrMoreOf() for a class outside the core, read back as the
      opaque objects it accepted. */
  function ZeroOrMoreOpaques(env: Env, v: Raw, kind: OpaqueKind): (r: Result<seq<Nodes.Opaque>>)
    ensures r.Ok? <==> ValidateZeroOrMoreOf(env, v, OpaqueClassName(kind)).Ok?
    ensures r.Err? ==> r.error == ValidateZeroOrMoreOf(env, v, OpaqueClassName(kind)).error
    ensures r.Ok? ==> var xs := ValidateZeroOrMoreOf(env, v, OpaqueClassName(kind)).value;
      |r.value| == |xs| && forall i :: 0 <= i < |xs| ==> xs[i] == RObj(NOpaque(r.value[i])) && r.value[i].kind == kind
  {
    match ValidateZeroOrMoreOf(env, v, OpaqueClassName(kind))
    case Err(e) => Err(e)
    case Ok(xs) =>
      OpaqueNotDateTime(kind);
      ZeroOrMoreInstances(env, v, OpaqueClassName(kind));
      Ok(OpaquesOf(xs, kind))
  }

  /** validateOneOrMoreOf() for a class outside the core, read back as the
      opaque objects it accepted. */
  function OneOrMoreOpaques(env: Env, v: Raw, kind: OpaqueKind): (r: Result<seq<Nodes.Opaque>>)
    ensures r.Ok? <==> ValidateOneOrMoreOf(env, v, OpaqueClassName(kind)).Ok?
    ensures r.Err? ==> r.error == ValidateOneOrMoreOf(env, v, OpaqueClassName(kind)).error
    ensures r.Ok? ==> var xs := ValidateOneOrMoreOf(env, v, OpaqueClassName(kind)).value;
      |r.value| == |xs| && forall i :: 0 <= i < |xs| ==> xs[i] == RObj(NOpaque(r.value[i])) && r.value[i].kind == kind
  {
    match ValidateOneOrMoreOf(env, v, OpaqueClassName(kind))
    case Err(e) => Err(e)
    case Ok(xs) =>
      OpaqueNotDateTime(kind);
      OneOrMoreInstances(env, v, OpaqueClassName(kind));
      Ok(OpaquesOf(xs, kind))
  }

  /** No opaque class is \DateTime. */
  lemma OpaqueNotDateTime(kind: OpaqueKind)
    ensures OpaqueClassName(kind) != "\\DateTime"
  {
    OpaqueClassNameBare(kind);
    assert "\\DateTime"[0] == '\\';
  }

  /** A list of opaque objects of one class passes the one-or-more check for
      that class and reads back as the same objects. */
  lemma OpaqueListValidatesOneOrMore(env: Env, os: seq<Nodes.Opaque>, kind: OpaqueKind)
    requires forall i :: 0 <= i < |os| ==> os[i].kind == kind
    ensures OneOrMoreOpaques(env, ListOf(Objects(OpaqueNodes(os))), kind) == Ok(os)
  {
    OpaqueNodesClass(os, kind);
    BuiltListValidates(env, OpaqueNodes(os), OpaqueClassName(kind));
    var r := OneOrMoreOpaques(env, ListOf(Objects(OpaqueNodes(os))), kind);
    var xs := Objects(OpaqueNodes(os));
    assert r.value == os by {
      assert forall i :: 0 <= i < |xs| ==> RObj(NOpaque(r.value[i])) == xs[i] == RObj(NOpaque(os[i]));
    }
  }

  /** The contacts of a validated list. */
  function ContactsOf(xs: seq<Raw>): (ys: seq<Contact>)
    requires forall i :: 0 <= i < |xs| ==> InstanceOf(xs[i], ExpectedClassName("Contact"))
    ensures |ys| == |xs| && forall i :: 0 <= i < |xs| ==> xs[i] == RObj(NContact(ys[i]))
  {
    assert forall i :: 0 <= i < |xs| ==> xs[i].RObj? && xs[i].node.NContact? by {
      forall i | 0 <= i < |xs| ensures xs[i].RObj? && xs[i].node.NContact? {
        assert InstanceOf(xs[i], ExpectedClassName("Contact"));
        ContactClass(xs[i].node);
      }
    }
    seq(|xs|, i requires 0 <= i < |xs| => xs[i].node.contact)
  }

  /** validateZeroOrMoreOf(.., 'Contact'), read back as contacts. */
  function ZeroOrMoreContacts(env: Env, v: Raw): (r: Result<seq<Contact>>)
    ensures r.Ok? <==> ValidateZeroOrMoreOf(env, v, "Contact").Ok?
    ensures r.Err? ==> r.error == ValidateZeroOrMoreOf(env, v, "Contact").error
    ensures r.Ok? ==> var xs := ValidateZeroOrMoreOf(env, v, "Contact").value;
      |r.value| == |xs| && forall i :: 0 <= i < |xs| ==> xs[i] == RObj(NContact(r.value[i]))
  {
    match ValidateZeroOrMoreOf(env, v, "Contact")
    case Err(e) => Err(e)
    case Ok(xs) =>
      ZeroOrMoreInstances(env, v, "Contact");
      Ok(ContactsOf(xs))
  }

  /** The contributor identifiers of a validated list. */
  function ItemContributorIdsOf(xs: seq<Raw>): (ys: seq<ItemContributorId>)
    requires forall i :: 0 <= i < |xs| ==> InstanceOf(xs[i], ExpectedClassName("ItemContributorId"))
    ensures |ys| == |xs| && forall i :: 0 <= i < |xs| ==> xs[i] == RObj(NItemContributorId(ys[i]))
  {
    assert forall i :: 0 <= i < |xs| ==> xs[i].RObj? && xs[i].node.NItemContributorId? by {
      forall i | 0 <= i < |xs| ensures xs[i].RObj? && xs[i].node.NItemContributorId? {
        assert InstanceOf(xs[i], ExpectedClassName("ItemContributorId"));
        ItemContributorIdClass(xs[i].node);
      }
    }
    seq(|xs|, i requires 0 <= i < |xs| => xs[i].node.contributorId)
  }

  /** validateZeroOrMoreOf(.., 'ItemContributorId'), read back as contributor identifiers. */
  function ZeroOrMoreItemContributorIds(env: Env, v: Raw): (r: Result<seq<ItemContributorId>>)
    ensures r.Ok? <==> ValidateZeroOrMoreOf(env, v, "ItemContributorId").Ok?
    ensures r.Err? ==> r.error == ValidateZeroOrMoreOf(env, v, "ItemContributorId").error
    ensures r.Ok? ==> var xs := ValidateZeroOrMoreOf(env, v, "ItemContributorId").value;
      |r.value| == |xs| && forall i :: 0 <= i < |xs| ==> xs[i] == RObj(NItemContributorId(r.value[i]))
  {
    match ValidateZeroOrMoreOf(env, v, "ItemContributorId")
    case Err(e) => Err(e)
    case Ok(xs) =>
      ZeroOrMoreInstances(env, v, "ItemContributorId");
      Ok(ItemContributorIdsOf(xs))
  }

  /** The contributors of a validated list. */
  function ItemContributorsOf(xs: seq<Raw>): (ys: seq<ItemContributor>)
    requires forall i :: 0 <= i < |xs| ==> InstanceOf(xs[i], ExpectedClassName("ItemContributor"))
    ensures |ys| == |xs| && forall i :: 0 <= i < |xs| ==> xs[i] == RObj(NItemContributor(ys[i]))
  {
    assert forall i :: 0 <= i < |xs| ==> xs[i].RObj? && xs[i].node.NItemContributor? by {
      forall i | 0 <= i < |xs| ensures xs[i].RObj? && xs[i].node.NItemContributor? {
        assert InstanceOf(xs[i], ExpectedClassName("ItemContributor"));
        ItemContributorClass(xs[i].node);
      }
    }
    seq(|xs|, i requires 0 <= i < |xs| => xs[i].node.contributor)
  }

  /** validateZeroOrMoreOf(.., 'ItemContributor'), read back as contributors. */
  function ZeroOrMoreItemContributors(env: Env, v: Raw): (r: Result<seq<ItemContributor>>)
    ensures r.Ok? <==> ValidateZeroOrMoreOf(env, v, "ItemContributor").Ok?
    ensures r.Err? ==> r.error == ValidateZeroOrMoreOf(env, v, "ItemContributor").error
    ensures r.Ok? ==> var xs := ValidateZeroOrMoreOf(env, v, "ItemContributor").value;
      |r.value| == |xs| && forall i :: 0 <= i < |xs| ==> xs[i] == RObj(NItemContributor(r.value[i]))
  {
    match ValidateZeroOrMoreOf(env, v, "ItemContributor")
    case Err(e) => Err(e)
    case Ok(xs) =>
      ZeroOrMoreInstances(env, v, "ItemContributor");
      Ok(ItemContributorsOf(xs))
  }

  /** The item dates of a validated list. */
  function ItemDatesOf(xs: seq<Raw>): (ys: seq<ItemDate>)
    requires forall i :: 0 <= i < |xs| ==> InstanceOf(xs[i], ExpectedClassName("ItemDate"))
    ensures |ys| == |xs| && forall i :: 0 <= i < |xs| ==> xs[i] == RObj(NItemDate(ys[i]))
  {
    assert forall i :: 0 <= i < |xs| ==> xs[i].RObj? && xs[i].node.NItemDate? by {
      forall i | 0 <= i < |xs| ensures xs[i].RObj? && xs[i].node.NItemDate? {
        assert InstanceOf(xs[i], ExpectedClassName("ItemDate"));
        ItemDateClass(xs[i].node);
      }
    }
    seq(|xs|, i requires 0 <= i < |xs| => xs[i].node.itemDate)
  }

  /** validateZeroOrMoreOf(.., 'ItemDate'), read back as item dates. */
  function ZeroOrMoreItemDates(env: Env, v: Raw): (r: Result<seq<ItemDate>>)
    ensures r.Ok? <==> ValidateZeroOrMoreOf(env, v, "ItemDate").Ok?
    ensures r.Err? ==> r.error == ValidateZeroOrMoreOf(env, v, "ItemDate").error
    ensures r.Ok? ==> var xs := ValidateZeroOrMoreOf(env, v, "ItemDate").value;
      |r.value| == |xs| && forall i :: 0 <= i < |xs| ==> xs[i] == RObj(NItemDate(r.value[i]))
  {
    match ValidateZeroOrMoreOf(env, v, "ItemDate")
    case Err(e) => Err(e)
    case Ok(xs) =>
      ZeroOrMoreInstances(env, v, "ItemDate");
      Ok(ItemDatesOf(xs))
  }

  /** The customers of a validated list. */
  function CustomersOf(xs: seq<Raw>): (ys: seq<Customer>)
    requires forall i :: 0 <= i < |xs| ==> InstanceOf(xs[i], ExpectedClassName("Customer"))
    ensures |ys| == |xs| && forall i :: 0 <= i < |xs| ==> xs[i] == RObj(NCustomer(ys[i]))
  {
    assert forall i :: 0 <= i < |xs| ==> xs[i].RObj? && xs[i].node.NCustomer? by {
      forall i | 0 <= i < |xs| ensures xs[i].RObj? && xs[i].node.NCustomer? {
        assert InstanceOf(xs[i], ExpectedClassName("Customer"));
        CustomerClass(xs[i].node);
      }
    }
    seq(|xs|, i requires 0 <= i < |xs| => xs[i].node.customer)
  }

  /** validateOneOrMoreOf(.., 'Customer'), read back as customers. */
  function OneOrMoreCustomers(env: Env, v: Raw): (r: Result<seq<Customer>>)
    ensures r.Ok? <==> ValidateOneOrMoreOf(env, v, "Customer").Ok?
    ensures r.Err? ==> r.error == ValidateOneOrMoreOf(env, v, "Customer").error
    ensures r.Ok? ==> var xs := ValidateOneOrMoreOf(env, v, "Customer").value;
      |r.value| == |xs| && forall i :: 0 <= i < |xs| ==> xs[i] == RObj(NCustomer(r.value[i]))
  {
    match ValidateOneOrMoreOf(env, v, "Customer")
    case Err(e) => Err(e)
    case Ok(xs) =>
      OneOrMoreInstances(env, v, "Customer");
      Ok(CustomersOf(xs))
  }

  /** The reports of a validated list. */
  function ReportsOf(xs: seq<Raw>): (ys: seq<Report>)
    requires forall i :: 0 <= i < |xs| ==> InstanceOf(xs[i], ExpectedClassName("Report"))
    ensures |ys| == |xs| && forall i :: 0 <= i < |xs| ==> xs[i] == RObj(NReport(ys[i]))
  {
    assert forall i :: 0 <= i < |xs| ==> xs[i].RObj? && xs[i].node.NReport? by {
      forall i | 0 <= i < |xs| ensures xs[i].RObj? && xs[i].node.NReport? {
        assert InstanceOf(xs[i], ExpectedClassName("Report"));
        ReportClass(xs[i].node);
      }
    }
    seq(|xs|, i requires 0 <= i < |xs| => xs[i].node.report)
  }

  /** validateOneOrMoreOf(.., 'Report'), read back as reports. */
  function OneOrMoreReports(env: Env, v: Raw): (r: Result<seq<Report>>)
    ensures r.Ok? <==> ValidateOneOrMoreOf(env, v, "Report").Ok?
    ensures r.Err? ==> r.error == ValidateOneOrMoreOf(env, v, "Report").error
    ensures r.Ok? ==> var xs := ValidateOneOrMoreOf(env, v, "Report").value;
      |r.value| == |xs| && forall i :: 0 <= i < |xs| ==> xs[i] == RObj(NReport(r.value[i]))
  {
    match ValidateOneOrMoreOf(env, v, "Report")
    case Err(e) => Err(e)
    case Ok(xs) =>
      OneOrMoreInstances(env, v, "Report");
      Ok(ReportsOf(xs))
  }

  /** validateOneOf(.., 'Report'), read back as the report it accepted. */
  function OneReport(env: Env, v: Raw): (r: Result<Report>)
    ensures r.Ok? <==> ValidateOneOf(env, v, "Report").Ok?
    ensures r.Err? ==> r.error == ValidateOneOf(env, v, "Report").error
    ensures r.Ok? ==> v == RObj(NReport(r.value))
  {
    match ValidateOneOf(env, v, "Report")
    case Err(e) => Err(e)
    case Ok(_) =>
      OneOfClass(env, v, "Report");
      ReportClass(v.node);
      Ok(v.node.report)
  }

  /** validateOneOf(.., 'DateRange'), read back as the period it accepted. */
  function OneDateRange(env: Env, v: Raw): (r: Result<DateRange>)
    ensures r.Ok? <==> ValidateOneOf(env, v, "DateRange").Ok?
    ensures r.Err? ==> r.error == ValidateOneOf(env, v, "DateRange").error
    ensures r.Ok? ==> v == RObj(NDateRange(r.value))
  {
    match ValidateOneOf(env, v, "DateRange")
    case Err(e) => Err(e)
    case Ok(_) =>
      OneOfClass(env, v, "DateRange");
      DateRangeClass(v.node);
      Ok(v.node.range)
  }

  /** validateOneOf(.., 'Vendor'), read back as the vendor it accepted. */
  function OneVendor(env: Env, v: Raw): (r: Result<Vendor>)
    ensures r.Ok? <==> ValidateOneOf(env, v, "Vendor").Ok?
    ensures r.Err? ==> r.error == ValidateOneOf(env, v, "Vendor").error
    ensures r.Ok? ==> v == RObj(NVendor(r.value))
  {
    match ValidateOneOf(env, v, "Vendor")
    case Err(e) => Err(e)
    case Ok(_) =>
      OneOfClass(env, v, "Vendor");
      VendorClass(v.node);
      Ok(v.node.vendor)
  }

  /** validateZeroOrOneOf(.., 'Consortium'), read back as an optional
      consortium: None exactly when the value is empty. */
  function ZeroOrOneConsortium(env: Env, v: Raw): (r: Result<Option<Consortium>>)
    ensures r.Ok? <==> ValidateZeroOrOneOf(env, v, "Consortium").Ok?
    ensures r.Err? ==> r.error == ValidateZeroOrOneOf(env, v, "Consortium").error
    ensures r.Ok? ==> (r.value.None? <==> !Truthy(v))
    ensures r.Ok? && r.value.Some? ==> v == RObj(NConsortium(r.value.value))
  {
    match ValidateZeroOrOneOf(env, v, "Consortium")
    case Err(e) => Err(e)
    case Ok(_) =>
      if !Truthy(v) then Ok(None)
      else
        OneOfClass(env, v, "Consortium");
        ConsortiumClass(v.node);
        Ok(Some(v.node.consortium))
  }

  /** What validateOneOf() accepts for a class other than \DateTime is the
      object given, an instance of that class. */
  lemma OneOfClass(env: Env, v: Raw, className: string)
    requires className != "\\DateTime"
    requires ValidateOneOf(env, v, className).Ok?
    ensures v.RObj? && ClassOf(v.node) == ExpectedClassName(className)
  {
  }

  /** What validateZeroOrMoreOf() accepts are instances of the class it checks. */
  lemma ZeroOrMoreInstances(env: Env, v: Raw, className: string)
    requires className != "\\DateTime"
    requires ValidateZeroOrMoreOf(env, v, className).Ok?
    ensures var xs := ValidateZeroOrMoreOf(env, v, className).value;
      forall i :: 0 <= i < |xs| ==> InstanceOf(xs[i], ExpectedClassName(className))
  {
    if Truthy(v) {
      OneOrMoreInstances(env, v, className);
    }
  }

  /** The inherited build(): it fails, naming the class and the data. */
  function BuildFailure<T>(className: string, data: Raw): (r: Result<T>)
    ensures r == Err(BuildFailed(className, data))
  {
    Err(BuildFailed(className, data))
  }
}
