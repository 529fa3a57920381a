/** The PHP semantics the builders rely on: truthiness, gettype(), intval(),
    array indexing, isset(), `??`, key assignment and unset(). */
module Php {
  import opened Nodes
  import opened Decimal

  /** PHP boolean conversion of a string: "" and "0" are false. */
  predicate TruthyString(s: string)
  {
    s != "" && s != "0"
  }

  /** PHP boolean conversion (`if ($x)`); `empty($x)` is its negation. */
  predicate Truthy(v: Raw)
    ensures !Truthy(v) <==> v == RNull || v == RBool(false) || v == RInt(0)
                            || v == RStr("") || v == RStr("0") || v == RArr([])
  {
    match v
    case RNull => false
    case RBool(b) => b
    case RInt(i) => i != 0
    case RStr(s) => TruthyString(s)
    case RArr(es) => es != []
    case RObj(_) => true
  }

  /** gettype(), as it appears in the validators' messages. */
  function GetType(v: Raw): string
  {
    match v
    case RNull => "NULL"
    case RBool(_) => "boolean"
    case RInt(_) => "integer"
    case RStr(_) => "string"
    case RArr(_) => "array"
    case RObj(_) => "object"
  }

  /** The value a `foreach ($a as $k => $v)` loop binds to `$k`. */
  function KeyValue(k: Key): Raw
  {
    match k
    case IntKey(i) => RInt(i)
    case StrKey(s) => RStr(s)
  }

  /** The entry stored under `k`, if any. */
  function Lookup(es: seq<Entry>, k: Key): (r: Option<Raw>)
  {
    if es == [] then None
    else if es[0].key == k then Some(es[0].value)
    else
      var r := Lookup(es[1..], k);
      assert forall i :: 1 <= i < |es| ==> es[i] == es[1..][i - 1];
      r
  }

  /** `$a[k]`: an undefined index reads as null. */
  function Get(es: seq<Entry>, k: Key): Raw
  {
    match Lookup(es, k)
    case Some(v) => v
    case None => RNull
  }

  /** `isset($a[k])`: the key exists and its value is not null. */
  predicate Isset(es: seq<Entry>, k: Key)
  {
    Lookup(es, k).Some? && Lookup(es, k).value != RNull
  }

  /** `$a[k] ?? d`. */
  function Coalesce(es: seq<Entry>, k: Key, d: Raw): Raw
  {
    if Isset(es, k) then Get(es, k) else d
  }

  /** `$x ? $x : ''`. */
  function OrEmpty(v: Raw): (r: Raw)
    ensures Truthy(v) ==> r == v
    ensures !Truthy(v) ==> r == RStr("")
  {
    if Truthy(v) then v else RStr("")
  }

  /** `$a[k] = v`: an existing key keeps its position, a new key goes last. */
  function Assign(es: seq<Entry>, k: Key, v: Raw): (r: seq<Entry>)
    ensures Lookup(r, k) == Some(v)
    ensures forall k' :: k' != k ==> Lookup(r, k') == Lookup(es, k')
  {
    if es == [] then [Entry(k, v)]
    else if es[0].key == k then [Entry(k, v)] + es[1..]
    else [es[0]] + Assign(es[1..], k, v)
  }

  /** `unset($a[k])`. */
  function Unset(es: seq<Entry>, k: Key): (r: seq<Entry>)
    ensures Lookup(r, k) == None
    ensures forall k' :: k' != k ==> Lookup(r, k') == Lookup(es, k')
    ensures |r| <= |es|
  {
    if es == [] then []
    else if es[0].key == k then Unset(es[1..], k)
    else [es[0]] + Unset(es[1..], k)
  }

  /** The values of an array, in order (what `foreach ($a as $v)` visits). */
  function Values(es: seq<Entry>): (vs: seq<Raw>)
    ensures |vs| == |es| && forall i :: 0 <= i < |es| ==> vs[i] == es[i].value
  {
    seq(|es|, i requires 0 <= i < |es| => es[i].value)
  }

  /** The list `[x0, x1, ...]`, keyed 0, 1, ... as `$list[] = $x` appends them. */
  function ListOf(xs: seq<Raw>): (r: Raw)
    ensures r.RArr? && |r.entries| == |xs|
    ensures forall i :: 0 <= i < |xs| ==> r.entries[i] == Entry(IntKey(i), xs[i])
  {
    RArr(seq(|xs|, i requires 0 <= i < |xs| => Entry(IntKey(i), xs[i])))
  }

  /** Reading key `k` finds the first entry that has it. */
  lemma {:induction false} LookupFirst(es: seq<Entry>, k: Key, i: nat)
    requires i < |es| && es[i].key == k
    requires forall j :: 0 <= j < i ==> es[j].key != k
    ensures Lookup(es, k) == Some(es[i].value)
  {
    if i > 0 {
      LookupFirst(es[1..], k, i - 1);
    }
  }

  /** Reading a key no entry has gives nothing. */
  lemma {:induction false} LookupMissing(es: seq<Entry>, k: Key)
    requires forall j :: 0 <= j < |es| ==> es[j].key != k
    ensures Lookup(es, k) == None
  {
    if es != [] {
      LookupMissing(es[1..], k);
    }
  }

  /** No two entries share a key, as in every array PHP builds. */
  predicate DistinctKeys(es: seq<Entry>)
  {
    forall i, j :: 0 <= i < j < |es| ==> es[i].key != es[j].key
  }

  /** With distinct keys, each entry's key reads that entry's value. */
  lemma LookupDistinct(es: seq<Entry>, i: nat)
    requires DistinctKeys(es) && i < |es|
    ensures Lookup(es, es[i].key) == Some(es[i].value)
  {
    LookupFirst(es, es[i].key, i);
  }

  const PHP_INT_MAX: int := 0x7fff_ffff_ffff_ffff
  const PHP_INT_MIN: int := -0x8000_0000_0000_0000

  predicate IsSpace(c: char)
  {
    c == ' ' || '\t' <= c <= '\r'
  }

  function SpacePrefixLength(s: string): (k: nat)
    ensures k <= |s|
  {
    if s != [] && IsSpace(s[0]) then 1 + SpacePrefixLength(s[1..]) else 0
  }

  /** The value of the leading decimal digits of `s`, 0 when there are none. */
  function LeadingDigitsValue(s: string): nat
  {
    var k := DigitPrefixLength(s);
    DigitsValue(s[..k])
  }

  /** intval() of a string on a 64-bit build: leading whitespace, an optional
      sign and the leading digits, saturated to the integer range. */
  function StringToInt(s: string): (n: int)
    ensures PHP_INT_MIN <= n <= PHP_INT_MAX
  {
    var t := s[SpacePrefixLength(s)..];
    var n: int := if t != [] && t[0] == '-' then -(LeadingDigitsValue(t[1..]) as int)
             else if t != [] && t[0] == '+' then LeadingDigitsValue(t[1..])
             else LeadingDigitsValue(t);
    if n > PHP_INT_MAX then PHP_INT_MAX else if n < PHP_INT_MIN then PHP_INT_MIN else n
  }

  /** intval(): an integer is itself, every empty value is 0, and any other
      value lies in the 64-bit range. */
  function IntVal(v: Raw): (n: int)
    ensures v.RInt? ==> n == v.i
    ensures !Truthy(v) ==> n == 0
    ensures !v.RInt? ==> PHP_INT_MIN <= n <= PHP_INT_MAX
  {
    match v
    case RNull => 0
    case RBool(b) => if b then 1 else 0
    case RInt(i) => i
    case RStr(s) => StringToInt(s)
    case RArr(es) => if es == [] then 0 else 1
    case RObj(_) => 1
  }

  /** The decimal text of a non-negative integer reads back as that integer. */
  lemma StringToIntOfNatToString(n: nat)
    requires n <= PHP_INT_MAX
    ensures StringToInt(NatToString(n)) == n
  {
    var s := NatToString(n);
    assert SpacePrefixLength(s) == 0;
    assert s[0..] == s;
    assert DigitPrefixLength(s) == |s| by {
      AllDigitsPrefix(s);
    }
    assert s[..|s|] == s;
    NatToStringRoundTrip(n);
  }

  lemma {:induction false} AllDigitsPrefix(s: string)
    requires AllDigits(s)
    ensures DigitPrefixLength(s) == |s|
  {
    if s != [] {
      AllDigitsPrefix(s[1..]);
    }
  }
}
