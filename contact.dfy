/** COUNTER\Contact: a contact name and an e-mail address, either of which may
    be empty, built from any of five loosely structured input shapes. */
module Contact {
  import opened Nodes
  import opened Php
  import opened Xml
  import opened ReportBuilder

  const ClassName: string := "COUNTER\\Contact"

  /** __construct($contact = '', $email = ''): both must be strings. */
  function New(contact: Raw, email: Raw): (r: Result<Contact>)
    ensures r.Ok? <==> contact.RStr? && email.RStr?
    ensures r.Ok? ==> r.value.contact == contact.s && r.value.email == email.s
    ensures !contact.RStr? ==> r == Err(InvalidString(GetType(contact)))
    ensures contact.RStr? && !email.RStr? ==> r == Err(InvalidString(GetType(email)))
  {
    var c :- ValidateString(contact);
    var e :- ValidateString(email);
    Ok(Contact(c, e))
  }

  /** filter_var($x, FILTER_VALIDATE_EMAIL) as a condition; a value that is not
      a string is never taken for an address. */
  predicate IsEmail(env: Env, v: Raw)
  {
    v.RStr? && env.isEmail(v.s)
  }

  /** The first step of build(): a set `E-mail` key becomes `Email`. */
  function RenameEmail(es: seq<Entry>): (r: seq<Entry>)
    ensures Isset(es, StrKey("E-mail")) ==>
      Lookup(r, StrKey("E-mail")) == None && Lookup(r, StrKey("Email")) == Lookup(es, StrKey("E-mail"))
    ensures Isset(es, StrKey("E-mail")) ==>
      forall k :: k != StrKey("E-mail") && k != StrKey("Email") ==> Lookup(r, k) == Lookup(es, k)
    ensures !Isset(es, StrKey("E-mail")) ==> r == es
  {
    if Isset(es, StrKey("E-mail")) then
      Unset(Assign(es, StrKey("Email"), Get(es, StrKey("E-mail"))), StrKey("E-mail"))
    else es
  }

  /** build($array), over the renamed array: named fields; one name => address
      pair; a one-element list; a bare string; anything else fails. */
  function Build(env: Env, data: Raw): (r: Result<Contact>)
    ensures data.RStr? && env.isEmail(data.s) ==> r == Ok(Contact("", data.s))
    ensures data.RStr? && !env.isEmail(data.s) ==> r == Ok(Contact(data.s, ""))
    ensures !data.RArr? && !data.RStr? ==> r == Err(BuildFailed(ClassName, data))
  {
    match data
    case RArr(es0) =>
      var es := RenameEmail(es0);
      if Isset(es, StrKey("Contact")) || Isset(es, StrKey("Email")) then
        New(OrEmpty(Get(es, StrKey("Contact"))), OrEmpty(Get(es, StrKey("Email"))))
      else if |es| == 1 && IsAssociative(es) then
        var k := KeyValue(es[0].key);
        if IsEmail(env, k) then New(es[0].value, k) else New(k, es[0].value)
      else if |es| == 1 then
        var x := Get(es, IntKey(0));
        if IsEmail(env, x) then New(RStr(""), x) else New(x, RStr(""))
      else BuildFailure(ClassName, RArr(es))
    case RStr(s) =>
      if env.isEmail(s) then New(RStr(""), data) else New(data, RStr(""))
    case _ => BuildFailure(ClassName, data)
  }

  /** The renaming happens before any shape test: an input with `E-mail` builds
      exactly as the same input with the key renamed to `Email`. */
  lemma EmailAlias(env: Env, es: seq<Entry>)
    requires Isset(es, StrKey("E-mail"))
    ensures var renamed := RenameEmail(es);
      Lookup(renamed, StrKey("Email")) == Lookup(es, StrKey("E-mail"))
      && Build(env, RArr(es)) == Build(env, RArr(renamed))
  {
    var renamed := RenameEmail(es);
    assert !Isset(renamed, StrKey("E-mail"));
    assert RenameEmail(renamed) == renamed;
  }

  /** A set Contact or Email field: each field is taken when truthy and is ''
      otherwise; a truthy field that is not a string fails. */
  lemma BuildFromFields(env: Env, es: seq<Entry>)
    requires !Isset(es, StrKey("E-mail"))
    requires Isset(es, StrKey("Contact")) || Isset(es, StrKey("Email"))
    ensures var c, e := Get(es, StrKey("Contact")), Get(es, StrKey("Email"));
      var r := Build(env, RArr(es));
      (r.Ok? <==> (!Truthy(c) || c.RStr?) && (!Truthy(e) || e.RStr?))
      && (r.Ok? ==> r.value == Contact(if Truthy(c) then c.s else "", if Truthy(e) then e.s else ""))
  {
  }

  /** A one-key map k => v with k none of Contact, Email, E-mail: k is the
      address and v the name when k is an address, and the other way round
      otherwise. */
  lemma BuildFromSingleKey(env: Env, k: string, v: Raw)
    requires k != "Contact" && k != "Email" && k != "E-mail"
    ensures var r := Build(env, RArr([Entry(StrKey(k), v)]));
      (r.Ok? <==> v.RStr?)
      && (r.Ok? && env.isEmail(k) ==> r.value == Contact(v.s, k))
      && (r.Ok? && !env.isEmail(k) ==> r.value == Contact(k, v.s))
  {
    var es := [Entry(StrKey(k), v)];
    LookupMissing(es, StrKey("E-mail"));
    LookupMissing(es, StrKey("Contact"));
    LookupMissing(es, StrKey("Email"));
    assert IsAssociative(es);
  }

  /** A one-element list [x]: x is the address when it is one and the name
      otherwise. The element is read at index 0, so a lone element stored under
      another integer key reads as null and fails. */
  lemma BuildFromSingleElement(env: Env, i: int, x: Raw)
    ensures var r := Build(env, RArr([Entry(IntKey(i), x)]));
      (i == 0 ==> (r.Ok? <==> x.RStr?))
      && (i == 0 && r.Ok? && env.isEmail(x.s) ==> r.value == Contact("", x.s))
      && (i == 0 && r.Ok? && !env.isEmail(x.s) ==> r.value == Contact(x.s, ""))
      && (i != 0 ==> r == Err(InvalidString("NULL")))
  {
    var es := [Entry(IntKey(i), x)];
    LookupMissing(es, StrKey("E-mail"));
    LookupMissing(es, StrKey("Contact"));
    LookupMissing(es, StrKey("Email"));
    assert !IsAssociative(es);
    if i == 0 {
      assert Get(es, IntKey(0)) == x;
    } else {
      LookupMissing(es, IntKey(0));
    }
  }

  /** Any array with neither Contact, Email nor E-mail set and other than one
      entry fails, an empty array and a two-element list included. */
  lemma BuildRejectsOtherArrays(env: Env, es: seq<Entry>)
    requires !Isset(es, StrKey("E-mail")) && !Isset(es, StrKey("Contact")) && !Isset(es, StrKey("Email"))
    requires |es| != 1
    ensures Build(env, RArr(es)) == Err(BuildFailed(ClassName, RArr(es)))
  {
  }

  /** asDOMDocument(): a Contact element with an optional Contact child and then
      an optional E-mail child, each omitted when its field is falsy. */
  function Dom(c: Contact): (x: Xml)
    ensures x.Element? && x.name == "Contact" && x.attrs == []
    ensures ChildNames(x) == (if TruthyString(c.contact) then ["Contact"] else [])
                             + (if TruthyString(c.email) then ["E-mail"] else [])
    ensures forall y <- x.children :: y == Leaf("Contact", c.contact) || y == Leaf("E-mail", c.email)
  {
    Element("", "Contact", [], OptionalLeaf("Contact", c.contact) + OptionalLeaf("E-mail", c.email))
  }

  /** Contact::build as a builder of objects, for buildMultiple. */
  function Builder(env: Env): Raw -> Result<Node>
  {
    (v: Raw) => match Build(env, v)
                case Ok(c) => Ok(NContact(c))
                case Err(e) => Err(e)
  }

  /** The trees of a list of contacts, in order. */
  function Doms(cs: seq<Contact>): (xs: seq<Xml>)
    ensures |xs| == |cs| && forall i :: 0 <= i < |cs| ==> xs[i] == Dom(cs[i])
  {
    seq(|cs|, i requires 0 <= i < |cs| => Dom(cs[i]))
  }

  /** Every tree of a list of contacts is a Contact element. */
  lemma DomsNames(cs: seq<Contact>)
    ensures Names(Doms(cs)) == Repeat("Contact", |cs|)
  {
  }

  /** A list of contacts as objects. */
  function AsNodes(cs: seq<Contact>): (ns: seq<Node>)
    ensures |ns| == |cs| && forall i :: 0 <= i < |cs| ==> ns[i] == NContact(cs[i])
  {
    seq(|cs|, i requires 0 <= i < |cs| => NContact(cs[i]))
  }

  /** A list of contacts as loose values. */
  function AsObjects(cs: seq<Contact>): (vs: seq<Raw>)
    ensures vs == ReportBuilder.Objects(AsNodes(cs))
  {
    ReportBuilder.Objects(AsNodes(cs))
  }

  /** A list of contact objects passes the zero-or-more check and reads back
      as the same contacts. */
  lemma ListValidates(env: Env, cs: seq<Contact>)
    ensures ZeroOrMoreContacts(env, ListOf(AsObjects(cs))) == Ok(cs)
  {
    ObjectsValidate(env, cs);
    var r := ZeroOrMoreContacts(env, ListOf(AsObjects(cs)));
    var xs := AsObjects(cs);
    assert r.value == cs by {
      assert forall i :: 0 <= i < |xs| ==> RObj(NContact(r.value[i])) == xs[i] == RObj(NContact(cs[i]));
    }
  }

  /** The objects pass the check unchanged. */
  lemma ObjectsValidate(env: Env, cs: seq<Contact>)
    ensures ValidateZeroOrMoreOf(env, ListOf(AsObjects(cs)), "Contact") == Ok(AsObjects(cs))
  {
    ClassNameSpellings("Contact");
    BuiltListValidatesZeroOrMore(env, AsNodes(cs), "Contact");
  }

  /** The canonical input for a contact. */
  function ToRaw(c: Contact): Raw
  {
    RArr([Entry(StrKey("Contact"), RStr(c.contact)), Entry(StrKey("Email"), RStr(c.email))])
  }

  /** A falsy string field reads back as ''. */
  function Shown(s: string): (r: string)
    ensures TruthyString(r) == TruthyString(s)
    ensures TruthyString(s) ==> r == s
  {
    if TruthyString(s) then s else ""
  }

  /** Building from the canonical input gives back the contact, with a "0"
      field read as '', and so the same rendered tree. */
  lemma RoundTrip(env: Env, c: Contact)
    ensures Build(env, ToRaw(c)) == Ok(Contact(Shown(c.contact), Shown(c.email)))
    ensures Dom(Build(env, ToRaw(c)).value) == Dom(c)
  {
    var es := ToRaw(c).entries;
    LookupMissing(es, StrKey("E-mail"));
    assert Get(es, StrKey("Contact")) == RStr(c.contact);
    LookupFirst(es, StrKey("Email"), 1);
  }

  /** The contact list that building from the canonical input gives: a
      contact's "0" field reads back as ''. */
  function Normalised(cs: seq<Contact>): (ns: seq<Contact>)
    ensures |ns| == |cs|
  {
    seq(|cs|, i requires 0 <= i < |cs| => Contact(Shown(cs[i].contact), Shown(cs[i].email)))
  }

  /** The canonical inputs of a list of contacts. */
  function ListToRaw(cs: seq<Contact>): Raw
  {
    ListOf(seq(|cs|, i requires 0 <= i < |cs| => ToRaw(cs[i])))
  }

  /** A list of canonical contact inputs builds to the normalised contacts. */
  lemma ListBuilds(env: Env, cs: seq<Contact>)
    ensures BuildMultiple(Builder(env), ListToRaw(cs)) == Ok(ListOf(AsObjects(Normalised(cs))))
  {
    var raws := seq(|cs|, i requires 0 <= i < |cs| => ToRaw(cs[i]));
    var n := Normalised(cs);
    var ns := AsNodes(n);
    forall i | 0 <= i < |raws| ensures Builder(env)(raws[i]) == Ok(ns[i]) {
      RoundTrip(env, cs[i]);
    }
    BuildMultipleOfList(Builder(env), raws, ns);
  }

  /** Normalising the contacts does not change how they render. */
  lemma NormalisedDoms(env: Env, cs: seq<Contact>)
    ensures Doms(Normalised(cs)) == Doms(cs)
  {
    forall i | 0 <= i < |cs| ensures Dom(Normalised(cs)[i]) == Dom(cs[i]) {
      RoundTrip(env, cs[i]);
    }
  }

  /** "a@example.com" => "Jane Doe" is a contact named Jane Doe at that address,
      rendered as a Contact element with a Contact and an E-mail child. */
  lemma ScenarioAddressKey(env: Env)
    requires env.isEmail("a@example.com")
    ensures Build(env, RArr([Entry(StrKey("a@example.com"), RStr("Jane Doe"))]))
            == Ok(Contact("Jane Doe", "a@example.com"))
    ensures ChildNames(Dom(Contact("Jane Doe", "a@example.com"))) == ["Contact", "E-mail"]
  {
    BuildFromSingleKey(env, "a@example.com", RStr("Jane Doe"));
  }
}
