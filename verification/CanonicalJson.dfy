/** The canonical JSON printer of `crypto_utils.js`, and a normal form for the values it prints. */
module CanonicalJson {
  import opened Options
  import opened JsText

  type SafeInt = n: int | -0x1F_FFFF_FFFF_FFFF <= n <= 0x1F_FFFF_FFFF_FFFF

  datatype Entry<T> = Entry(key: JsString, val: T)

  /** A JavaScript value; an object lists its own properties in enumeration order. */
  datatype Json =
    | Undefined
    | Null
    | Bool(b: bool)
    | Num(n: SafeInt)
    | Str(s: JsString)
    | Arr(items: seq<Json>)
    | Obj(fields: seq<Entry<Json>>)

  // ---- Property lists ----

  function Keys<T>(es: seq<Entry<T>>): (ks: seq<JsString>)
    ensures |ks| == |es|
    ensures forall i :: 0 <= i < |es| ==> ks[i] == es[i].key
  {
    seq(|es|, i requires 0 <= i < |es| => es[i].key)
  }

  function Get<T>(es: seq<Entry<T>>, k: JsString): (r: Option<T>)
    ensures r.Some? <==> k in Keys(es)
  {
    if es == [] then None
    else if es[0].key == k then Some(es[0].val)
    else
      assert k in Keys(es) <==> k in Keys(es[1..]) by { assert Keys(es) == [es[0].key] + Keys(es[1..]); }
      Get(es[1..], k)
  }

  ghost predicate Distinct(ks: seq<JsString>)
  {
    forall i, j :: 0 <= i < j < |ks| ==> ks[i] != ks[j]
  }

  /** Every object, at every depth, has distinct property names. */
  ghost predicate WellFormed(v: Json)
  {
    match v
    case Arr(items) => forall i :: 0 <= i < |items| ==> WellFormed(items[i])
    case Obj(fields) =>
      Distinct(Keys(fields)) && forall i :: 0 <= i < |fields| ==> WellFormed(fields[i].val)
    case _ => true
  }

  /** A value that `JSON.parse` can produce. */
  ghost predicate IsJson(v: Json)
  {
    match v
    case Undefined => false
    case Arr(items) => forall i :: 0 <= i < |items| ==> IsJson(items[i])
    case Obj(fields) =>
      Distinct(Keys(fields)) && forall i :: 0 <= i < |fields| ==> IsJson(fields[i].val)
    case _ => true
  }

  // ---- The default order of Array.prototype.sort on strings: by code units ----

  predicate Leq(a: JsString, b: JsString)
  {
    a == [] || (b != [] && (a[0] < b[0] || (a[0] == b[0] && Leq(a[1..], b[1..]))))
  }

  function Insert(k: JsString, ks: seq<JsString>): seq<JsString>
  {
    if ks == [] || Leq(k, ks[0]) then [k] + ks else [ks[0]] + Insert(k, ks[1..])
  }

  function SortStrings(ks: seq<JsString>): (r: seq<JsString>)
    ensures |r| == |ks|
    ensures multiset(r) == multiset(ks)
    ensures forall k :: k in r <==> k in ks
  {
    if ks == [] then []
    else
      var rest := SortStrings(ks[1..]);
      InsertKeeps(ks[0], rest);
      assert ks == [ks[0]] + ks[1..];
      var r := Insert(ks[0], rest);
      assert forall k :: k in r <==> k in multiset(r);
      assert forall k :: k in ks <==> k in multiset(ks);
      r
  }

  lemma {:induction false} InsertKeeps(k: JsString, ks: seq<JsString>)
    ensures multiset(Insert(k, ks)) == multiset(ks) + multiset{k}
    ensures |Insert(k, ks)| == |ks| + 1
  {
    if ks == [] || Leq(k, ks[0]) {
    } else {
      InsertKeeps(k, ks[1..]);
      assert ks == [ks[0]] + ks[1..];
    }
  }

  /** `es` with its keys in sorted order. */
  function Rekey<T>(es: seq<Entry<T>>): seq<Entry<T>>
  {
    Pick(es, SortStrings(Keys(es)))
  }

  function Pick<T>(es: seq<Entry<T>>, ks: seq<JsString>): (r: seq<Entry<T>>)
    requires forall k :: k in ks ==> k in Keys(es)
    ensures |r| == |ks|
    ensures forall i :: 0 <= i < |ks| ==> r[i].key == ks[i] && Get(es, ks[i]) == Some(r[i].val)
  {
    seq(|ks|, i requires 0 <= i < |ks| => Entry(ks[i], Get(es, ks[i]).value))
  }

  // ---- Text ----

  const QUOTE: Unit := 0x22
  const BACKSLASH: Unit := 0x5C
  const COMMA: Unit := 0x2C
  const COLON: Unit := 0x3A
  const MINUS: Unit := 0x2D
  const LBRACKET: Unit := 0x5B
  const RBRACKET: Unit := 0x5D
  const LBRACE: Unit := 0x7B
  const RBRACE: Unit := 0x7D
  const NULL: JsString := [0x6E, 0x75, 0x6C, 0x6C]
  const TRUE: JsString := [0x74, 0x72, 0x75, 0x65]
  const FALSE: JsString := [0x66, 0x61, 0x6C, 0x73, 0x65]

  /** A lowercase hexadecimal digit. */
  function HexDigit(d: int): Unit
    requires 0 <= d < 16
  {
    if d < 10 then 0x30 + d else 0x61 + d - 10
  }

  /** The backslash-u escape, padded to four digits. */
  function UnicodeEscape(u: Unit): JsString
  {
    [BACKSLASH, 0x75, HexDigit(u / 4096), HexDigit(u / 256 % 16), HexDigit(u / 16 % 16), HexDigit(u % 16)]
  }

  /** `JSON.stringify` on one code unit, followed by the replacement of everything from U+007F on. */
  function EscapeUnit(u: Unit): JsString
  {
    if u == QUOTE then [BACKSLASH, QUOTE]
    else if u == BACKSLASH then [BACKSLASH, BACKSLASH]
    else if u == 8 then [BACKSLASH, 0x62]
    else if u == 12 then [BACKSLASH, 0x66]
    else if u == 10 then [BACKSLASH, 0x6E]
    else if u == 13 then [BACKSLASH, 0x72]
    else if u == 9 then [BACKSLASH, 0x74]
    else if u < 0x20 || u >= 0x7F then UnicodeEscape(u)
    else [u]
  }

  function EscapeAll(s: JsString): JsString
  {
    if s == [] then [] else EscapeUnit(s[0]) + EscapeAll(s[1..])
  }

  /** `pyAsciiJsonString`. */
  function Quote(s: JsString): JsString
  {
    [QUOTE] + EscapeAll(s) + [QUOTE]
  }

  function Digits(n: nat): (r: JsString)
    ensures r != []
    ensures forall i :: 0 <= i < |r| ==> 0x30 <= r[i] <= 0x39
  {
    if n < 10 then [0x30 + n] else Digits(n / 10) + [0x30 + n % 10]
  }

  function Decimal(n: int): JsString
  {
    if n < 0 then [MINUS] + Digits(-n) else Digits(n)
  }

  function Join(parts: seq<JsString>): JsString
  {
    if parts == [] then [] else if |parts| == 1 then parts[0] else parts[0] + [COMMA] + Join(parts[1..])
  }

  function MemberTexts(es: seq<Entry<JsString>>): seq<JsString>
  {
    if es == [] then [] else [Quote(es[0].key) + ([COLON] + es[0].val)] + MemberTexts(es[1..])
  }

  // ---- canonicalJson ----

  function Canonical(v: Json): JsString
    decreases v, 1
  {
    match v
    case Undefined => NULL
    case Null => NULL
    case Bool(b) => if b then TRUE else FALSE
    case Num(n) => Decimal(n)
    case Str(s) => Quote(s)
    case Arr(items) => [LBRACKET] + Join(CanonicalItems(items)) + [RBRACKET]
    case Obj(fields) => [LBRACE] + Join(MemberTexts(Rekey(CanonicalFields(fields)))) + [RBRACE]
  }

  function CanonicalItems(items: seq<Json>): (r: seq<JsString>)
    ensures |r| == |items|
    decreases items, 0
  {
    if items == [] then [] else [Canonical(items[0])] + CanonicalItems(items[1..])
  }

  /** The printed properties; a property whose value is undefined is dropped. */
  function CanonicalFields(fields: seq<Entry<Json>>): seq<Entry<JsString>>
    decreases fields, 0
  {
    if fields == [] then []
    else if fields[0].val == Undefined then CanonicalFields(fields[1..])
    else [Entry(fields[0].key, Canonical(fields[0].val))] + CanonicalFields(fields[1..])
  }

  // ---- The value a canonical text denotes ----

  /** `v` with undefined array items made null, undefined properties dropped and keys sorted. */
  function Norm(v: Json): Json
    decreases v, 1
  {
    match v
    case Undefined => Null
    case Arr(items) => Arr(NormItems(items))
    case Obj(fields) => Obj(Rekey(NormFields(fields)))
    case _ => v
  }

  function NormItems(items: seq<Json>): (r: seq<Json>)
    ensures |r| == |items|
    ensures forall i :: 0 <= i < |items| ==> r[i] == Norm(items[i])
    decreases items, 0
  {
    if items == [] then [] else [Norm(items[0])] + NormItems(items[1..])
  }

  function NormFields(fields: seq<Entry<Json>>): seq<Entry<Json>>
    decreases fields, 0
  {
    if fields == [] then []
    else if fields[0].val == Undefined then NormFields(fields[1..])
    else [Entry(fields[0].key, Norm(fields[0].val))] + NormFields(fields[1..])
  }
}
