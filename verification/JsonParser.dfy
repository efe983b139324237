/** `JSON.parse` on the texts whose numbers are safe integers (RFC 8259). A number with a fraction
    or an exponent, or outside the safe range, is not part of this model and parses to None. */
module JsonParser {
  import opened Options
  import opened JsText
  import opened CanonicalJson

  type Parsed<T> = Option<(T, JsString)>

  predicate IsWs(u: Unit)
  {
    u == 0x20 || u == 9 || u == 10 || u == 13
  }

  function SkipWs(s: JsString): (r: JsString)
    ensures |r| <= |s|
    ensures s != [] && !IsWs(s[0]) ==> r == s
  {
    if s != [] && IsWs(s[0]) then SkipWs(s[1..]) else s
  }

  predicate IsDigit(u: Unit)
  {
    0x30 <= u <= 0x39
  }

  function HexValue(u: Unit): (r: Option<nat>)
    ensures r.Some? ==> r.value < 16
  {
    if IsDigit(u) then Some(u - 0x30)
    else if 0x61 <= u <= 0x66 then Some(u - 0x61 + 10)
    else if 0x41 <= u <= 0x46 then Some(u - 0x41 + 10)
    else None
  }

  // ---- Strings ----

  /** One escape, after its backslash. */
  function ParseEscape(s: JsString): (r: Parsed<Unit>)
    ensures r.Some? ==> |r.value.1| < |s|
  {
    if s == [] then None
    else if s[0] == QUOTE || s[0] == BACKSLASH || s[0] == 0x2F then Some((s[0], s[1..]))
    else if s[0] == 0x62 then Some((8, s[1..]))
    else if s[0] == 0x66 then Some((12, s[1..]))
    else if s[0] == 0x6E then Some((10, s[1..]))
    else if s[0] == 0x72 then Some((13, s[1..]))
    else if s[0] == 0x74 then Some((9, s[1..]))
    else if s[0] == 0x75 && |s| >= 5 then
      match (HexValue(s[1]), HexValue(s[2]), HexValue(s[3]), HexValue(s[4]))
      case (Some(a), Some(b), Some(c), Some(d)) => Some((a * 4096 + b * 256 + c * 16 + d, s[5..]))
      case _ => None
    else None
  }

  /** The rest of a string, after its opening quote. */
  function ParseChars(s: JsString): (r: Parsed<JsString>)
    ensures r.Some? ==> |r.value.1| < |s|
  {
    if s == [] then None
    else if s[0] == QUOTE then Some(([], s[1..]))
    else if s[0] == BACKSLASH then
      match ParseEscape(s[1..])
      case None => None
      case Some((u, rest)) => Prepend(u, ParseChars(rest))
    else if s[0] < 0x20 then None
    else Prepend(s[0], ParseChars(s[1..]))
  }

  function Prepend<T>(x: T, p: Parsed<seq<T>>): (r: Parsed<seq<T>>)
    ensures r.Some? ==> p.Some? && r.value.1 == p.value.1
  {
    if p.Some? then Some(([x] + p.value.0, p.value.1)) else None
  }

  // ---- Numbers ----

  function DigitPrefix(s: JsString): (n: nat)
    ensures n <= |s|
    ensures forall i :: 0 <= i < n ==> IsDigit(s[i])
    ensures n < |s| ==> !IsDigit(s[n])
  {
    if s != [] && IsDigit(s[0]) then
      var n := DigitPrefix(s[1..]) + 1;
      assert forall i :: 1 <= i < n ==> s[i] == s[1..][i - 1];
      n
    else 0
  }

  function DigitValue(u: Unit): nat
    requires IsDigit(u)
  {
    u - 0x30
  }

  function ValueOf(ds: JsString): nat
    requires forall i :: 0 <= i < |ds| ==> IsDigit(ds[i])
  {
    if ds == [] then 0 else 10 * ValueOf(ds[..|ds| - 1]) + DigitValue(ds[|ds| - 1])
  }

  function ParseUnsigned(s: JsString): (r: Parsed<nat>)
    ensures r.Some? ==> |r.value.1| < |s|
  {
    var n := DigitPrefix(s);
    var rest := s[n..];
    if n == 0 || (n > 1 && s[0] == 0x30) then None
    else if rest != [] && (rest[0] == 0x2E || rest[0] == 0x45 || rest[0] == 0x65) then None
    else Some((ValueOf(s[..n]), rest))
  }

  function Signed(p: Parsed<nat>, negative: bool): (r: Parsed<Json>)
    ensures r.Some? ==> p.Some? && r.value.1 == p.value.1
  {
    if p.None? || p.value.0 > 0x1F_FFFF_FFFF_FFFF then None
    else Some((Num(if negative then 0 - p.value.0 else p.value.0), p.value.1))
  }

  function ParseNumber(s: JsString): (r: Parsed<Json>)
    ensures r.Some? ==> |r.value.1| < |s|
  {
    if s != [] && s[0] == MINUS then Signed(ParseUnsigned(s[1..]), true)
    else Signed(ParseUnsigned(s), false)
  }

  // ---- Values ----

  function Literal(s: JsString, word: JsString, v: Json): (r: Parsed<Json>)
    requires word != []
    ensures r.Some? ==> |r.value.1| < |s|
  {
    if word <= s then Some((v, s[|word|..])) else None
  }

  function ParseValue(s: JsString): (r: Parsed<Json>)
    ensures r.Some? ==> |r.value.1| < |s|
    decreases |s|, 0
  {
    var t := SkipWs(s);
    if t == [] then None
    else if t[0] == QUOTE then ParseString(t[1..])
    else if t[0] == LBRACKET then ParseArray(t[1..])
    else if t[0] == LBRACE then ParseObject(t[1..])
    else if t[0] == 0x6E then Literal(t, NULL, Null)
    else if t[0] == 0x74 then Literal(t, TRUE, Bool(true))
    else if t[0] == 0x66 then Literal(t, FALSE, Bool(false))
    else ParseNumber(t)
  }

  function ParseString(s: JsString): (r: Parsed<Json>)
    ensures r.Some? ==> |r.value.1| < |s|
  {
    match ParseChars(s)
    case None => None
    case Some((cs, rest)) => Some((Str(cs), rest))
  }

  function ParseArray(s: JsString): (r: Parsed<Json>)
    ensures r.Some? ==> |r.value.1| < |s|
    decreases |s|, 2
  {
    var t := SkipWs(s);
    if t != [] && t[0] == RBRACKET then Some((Arr([]), t[1..]))
    else
      match ParseItems(s)
      case None => None
      case Some((items, rest)) => Some((Arr(items), rest))
  }

  function ParseObject(s: JsString): (r: Parsed<Json>)
    ensures r.Some? ==> |r.value.1| < |s|
    decreases |s|, 2
  {
    var t := SkipWs(s);
    if t != [] && t[0] == RBRACE then Some((Obj([]), t[1..]))
    else
      match ParseMembers(s)
      case None => None
      case Some((fields, rest)) => Some((Obj(fields), rest))
  }

  /** One or more array items, through the closing bracket. */
  function ParseItems(s: JsString): (r: Parsed<seq<Json>>)
    ensures r.Some? ==> |r.value.1| < |s|
    decreases |s|, 1
  {
    match ParseValue(s)
    case None => None
    case Some((v, rest)) =>
      var t := SkipWs(rest);
      if t != [] && t[0] == RBRACKET then Some(([v], t[1..]))
      else if t != [] && t[0] == COMMA then Prepend(v, ParseItems(t[1..]))
      else None
  }

  /** One or more members, through the closing brace. */
  function ParseMembers(s: JsString): (r: Parsed<seq<Entry<Json>>>)
    ensures r.Some? ==> |r.value.1| < |s|
    decreases |s|, 1
  {
    match ParseName(s)
    case None => None
    case Some((key, rest)) =>
      match ParseValue(rest)
      case None => None
      case Some((v, after)) =>
        var u := SkipWs(after);
        if u != [] && u[0] == RBRACE then Some(([Entry(key, v)], u[1..]))
        else if u != [] && u[0] == COMMA then AddMember(Entry(key, v), ParseMembers(u[1..]))
        else None
  }

  /** A property name through its colon. */
  function ParseName(s: JsString): (r: Parsed<JsString>)
    ensures r.Some? ==> |r.value.1| < |s|
  {
    var t := SkipWs(s);
    if t == [] || t[0] != QUOTE then None
    else
      match ParseChars(t[1..])
      case None => None
      case Some((key, rest)) =>
        var c := SkipWs(rest);
        if c == [] || c[0] != COLON then None else Some((key, c[1..]))
  }

  /** A repeated name keeps its first position and takes its last value. */
  function AddMember(e: Entry<Json>, p: Parsed<seq<Entry<Json>>>): (r: Parsed<seq<Entry<Json>>>)
    ensures r.Some? ==> p.Some? && r.value.1 == p.value.1
  {
    if p.None? then None
    else
      var later := Get(p.value.0, e.key);
      if later.None? then Some(([e] + p.value.0, p.value.1))
      else Some(([Entry(e.key, later.value)] + Without(p.value.0, e.key), p.value.1))
  }

  function Without<T>(es: seq<Entry<T>>, k: JsString): seq<Entry<T>>
  {
    if es == [] then []
    else if es[0].key == k then Without(es[1..], k)
    else [es[0]] + Without(es[1..], k)
  }

  function Parse(s: JsString): Option<Json>
  {
    match ParseValue(s)
    case None => None
    case Some((v, rest)) => if SkipWs(rest) == [] then Some(v) else None
  }
}
