/** The abstract DOM tree that every node's asDOMDocument() builds.
    Serialising this tree to text (libxml's saveXML) is not part of the model. */
module Xml {

  /** An attribute; `ns` is its namespace URI, "" for none. */
  datatype Attr = Attr(ns: string, name: string, value: string)

  /** An element (namespace URI, local or prefixed name, attributes in insertion
      order, children in insertion order) or a text node. */
  datatype Xml =
    | Element(ns: string, name: string, attrs: seq<Attr>, children: seq<Xml>)
    | Text(text: string)

  /** `createElement(name)` with one `createTextNode(text)` child. */
  function Leaf(name: string, text: string): (x: Xml)
    ensures x.Element? && x.name == name && x.attrs == [] && x.children == [Text(text)]
  {
    Element("", name, [], [Text(text)])
  }

  /** `createElement(name, value)`: libxml adds no text child for an empty value. */
  function ValueElement(name: string, value: string): (x: Xml)
    ensures x.Element? && x.name == name && x.attrs == []
    ensures |x.children| == (if value == "" then 0 else 1)
  {
    Element("", name, [], if value == "" then [] else [Text(value)])
  }

  /** One `createElement(name, value)` per value, in order. */
  function ValueElements(name: string, values: seq<string>): (xs: seq<Xml>)
    ensures |xs| == |values| && forall i :: 0 <= i < |values| ==> xs[i] == ValueElement(name, values[i])
  {
    seq(|values|, i requires 0 <= i < |values| => ValueElement(name, values[i]))
  }

  /** The name a child contributes to its parent's child-name list. */
  function NameOf(x: Xml): string
  {
    match x
    case Element(_, name, _, _) => name
    case Text(_) => "#text"
  }

  /** The names of the children of `x`, in document order. */
  function ChildNames(x: Xml): (names: seq<string>)
    ensures x.Element? ==> |names| == |x.children|
    ensures x.Element? ==> forall i :: 0 <= i < |names| ==> names[i] == NameOf(x.children[i])
    ensures x.Text? ==> names == []
  {
    if x.Text? then [] else seq(|x.children|, i requires 0 <= i < |x.children| => NameOf(x.children[i]))
  }

  /** The names of a list of trees. */
  function Names(xs: seq<Xml>): (names: seq<string>)
    ensures |names| == |xs|
    ensures forall i :: 0 <= i < |xs| ==> names[i] == NameOf(xs[i])
  {
    seq(|xs|, i requires 0 <= i < |xs| => NameOf(xs[i]))
  }

  /** The attribute names of `x`, in insertion order. */
  function AttrNames(x: Xml): (names: seq<string>)
    ensures x.Element? ==> |names| == |x.attrs|
    ensures x.Element? ==> forall i :: 0 <= i < |names| ==> names[i] == x.attrs[i].name
  {
    if x.Text? then [] else seq(|x.attrs|, i requires 0 <= i < |x.attrs| => x.attrs[i].name)
  }

  /** `n` copies of the name `s`. */
  function Repeat(s: string, n: nat): (r: seq<string>)
    ensures |r| == n && forall i :: 0 <= i < n ==> r[i] == s
  {
    seq(n, _ => s)
  }

  lemma ValueElementsNames(name: string, values: seq<string>)
    ensures Names(ValueElements(name, values)) == Repeat(name, |values|)
  {
  }

  lemma LeafNames(name: string, s: string)
    ensures Names([Leaf(name, s)]) == [name]
  {
  }

  lemma NamesAppend(a: seq<Xml>, b: seq<Xml>)
    ensures Names(a + b) == Names(a) + Names(b)
  {
  }

  /** The foreach loop of an asDOMDocument(): each tree of `xs` appended in
      turn after `children`. */
  method AppendAll(children: seq<Xml>, xs: seq<Xml>) returns (out: seq<Xml>)
    ensures out == children + xs
  {
    out := children;
    var i := 0;
    while i < |xs|
      invariant 0 <= i <= |xs|
      invariant out == children + xs[..i]
    {
      out := out + [xs[i]];
      i := i + 1;
      assert xs[..i] == xs[..i - 1] + [xs[i - 1]];
    }
    assert xs[..i] == xs;
  }
}
