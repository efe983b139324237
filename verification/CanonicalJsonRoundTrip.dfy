/** Parsing a canonical text gives back the normal form of the value that was printed. */
module CanonicalJsonRoundTrip {
  import opened Options
  import opened JsText
  import opened CanonicalJson
  import opened CanonicalJsonOrder
  import opened JsonParser

  // ---- Strings ----

  lemma EscapeUnitParses(u: Unit, t: JsString)
    ensures ParseChars(EscapeUnit(u) + t) == Prepend(u, ParseChars(t))
    ensures EscapeUnit(u) != []
  {
    var e := EscapeUnit(u);
    var s := e + t;
    assert s[0] == e[0];
    if |e| == 1 {
      assert s[1..] == t;
    } else if |e| == 2 {
      assert s[1..][0] == e[1] && s[1..][1..] == t;
    } else {
      assert s[1..] == UnicodeEscape(u)[1..] + t;
      UnicodeEscapeParses(u, t);
    }
  }

  lemma HexDigitParses(d: nat)
    requires d < 16
    ensures HexValue(HexDigit(d)) == Some(d)
  {
  }

  lemma HexDigitsRebuild(u: Unit)
    ensures 0 <= u / 4096 < 16
    ensures u / 4096 * 4096 + u / 256 % 16 * 256 + u / 16 % 16 * 16 + u % 16 == u
  {
    var a := u / 16;
    var b := u / 256;
    assert u == 16 * a + u % 16;
    assert a / 16 == b && a == 16 * b + a % 16;
    assert b / 16 == u / 4096 && b == 16 * (u / 4096) + b % 16;
  }

  lemma UnicodeEscapeParses(u: Unit, t: JsString)
    ensures ParseEscape(UnicodeEscape(u)[1..] + t) == Some((u, t))
  {
    var s := UnicodeEscape(u)[1..] + t;
    HexDigitsRebuild(u);
    HexDigitParses(u / 4096);
    HexDigitParses(u / 256 % 16);
    HexDigitParses(u / 16 % 16);
    HexDigitParses(u % 16);
    assert s[1] == HexDigit(u / 4096) && s[2] == HexDigit(u / 256 % 16);
    assert s[3] == HexDigit(u / 16 % 16) && s[4] == HexDigit(u % 16);
    assert s[5..] == t;
  }

  lemma {:induction false} CharsParse(s: JsString, rest: JsString)
    ensures ParseChars(EscapeAll(s) + [QUOTE] + rest) == Some((s, rest))
  {
    if s == [] {
      assert (EscapeAll(s) + [QUOTE] + rest)[1..] == rest;
    } else {
      var t := EscapeAll(s[1..]) + [QUOTE] + rest;
      assert EscapeAll(s) + [QUOTE] + rest == EscapeUnit(s[0]) + t;
      EscapeUnitParses(s[0], t);
      CharsParse(s[1..], rest);
      assert s == [s[0]] + s[1..];
    }
  }

  // ---- Numbers ----

  lemma {:induction false} DigitsValue(n: nat)
    ensures ValueOf(Digits(n)) == n
    ensures Digits(n)[0] == 0x30 <==> n == 0
  {
    if n >= 10 {
      DigitsValue(n / 10);
      var ds := Digits(n);
      assert ds[..|ds| - 1] == Digits(n / 10);
    } else {
      assert Digits(n)[..0] == [];
    }
  }

  lemma {:induction false} DigitPrefixExact(ds: JsString, rest: JsString)
    requires forall i :: 0 <= i < |ds| ==> IsDigit(ds[i])
    requires rest == [] || !IsDigit(rest[0])
    ensures DigitPrefix(ds + rest) == |ds|
  {
    if ds == [] {
      assert ds + rest == rest;
    } else {
      DigitPrefixExact(ds[1..], rest);
      assert (ds + rest)[1..] == ds[1..] + rest;
    }
  }

  lemma DigitsShort(n: nat)
    ensures |Digits(n)| > 1 ==> Digits(n)[0] != 0x30
  {
    DigitsValue(n);
  }

  /** What may follow a number in a canonical text. */
  predicate Stops(rest: JsString)
  {
    rest == [] || rest[0] == COMMA || rest[0] == RBRACKET || rest[0] == RBRACE
  }

  lemma UnsignedParses(m: nat, rest: JsString)
    requires Stops(rest)
    ensures ParseUnsigned(Digits(m) + rest) == Some((m, rest))
  {
    var ds := Digits(m);
    var body := ds + rest;
    DigitsValue(m);
    DigitPrefixExact(ds, rest);
    DigitsShort(m);
    assert body[..|ds|] == ds && body[|ds|..] == rest;
    assert body[0] == ds[0];
  }

  lemma SignedParses(text: JsString, m: nat, rest: JsString)
    requires text != [] && m <= 0x1F_FFFF_FFFF_FFFF
    requires ParseUnsigned(if text[0] == MINUS then text[1..] else text) == Some((m, rest))
    ensures ParseNumber(text) == Some((Num(if text[0] == MINUS then 0 - m else m), rest))
  {
  }

  lemma NumberParses(n: SafeInt, rest: JsString)
    requires Stops(rest)
    ensures ParseNumber(Decimal(n) + rest) == Some((Num(n), rest))
    ensures Decimal(n)[0] == MINUS || IsDigit(Decimal(n)[0])
  {
    if n < 0 {
      var s := [MINUS] + Digits(-n) + rest;
      UnsignedParses(-n, rest);
      assert s[0] == MINUS && s[1..] == Digits(-n) + rest;
      SignedParses(s, -n, rest);
    } else {
      var s := Digits(n) + rest;
      UnsignedParses(n, rest);
      assert s[0] == Digits(n)[0];
      SignedParses(s, n, rest);
    }
  }

  // ---- Printing without sorting ----

  function Plain(v: Json): (r: JsString)
    decreases v, 1
  {
    match v
    case Undefined => NULL
    case Null => NULL
    case Bool(b) => if b then TRUE else FALSE
    case Num(n) => Decimal(n)
    case Str(s) => Quote(s)
    case Arr(items) => if items == [] then [LBRACKET, RBRACKET] else [LBRACKET] + ItemsText(items) + [RBRACKET]
    case Obj(fields) => if fields == [] then [LBRACE, RBRACE] else [LBRACE] + MembersText(fields) + [RBRACE]
  }

  function ItemsText(items: seq<Json>): JsString
    requires items != []
    decreases items, 0
  {
    if |items| == 1 then Plain(items[0]) else Plain(items[0]) + ([COMMA] + ItemsText(items[1..]))
  }

  function MembersText(fields: seq<Entry<Json>>): JsString
    requires fields != []
    decreases fields, 0
  {
    var first := Quote(fields[0].key) + ([COLON] + Plain(fields[0].val));
    if |fields| == 1 then first else first + ([COMMA] + MembersText(fields[1..]))
  }

  /** The properties with their values printed. */
  function PlainFields(fields: seq<Entry<Json>>): (r: seq<Entry<JsString>>)
    ensures |r| == |fields|
  {
    if fields == [] then []
    else [Entry(fields[0].key, Plain(fields[0].val))] + PlainFields(fields[1..])
  }

  lemma {:induction false} PlainFieldsAt(fields: seq<Entry<Json>>, i: nat)
    requires i < |fields|
    ensures PlainFields(fields)[i] == Entry(fields[i].key, Plain(fields[i].val))
  {
    if i > 0 {
      PlainFieldsAt(fields[1..], i - 1);
    }
  }

  lemma {:induction false} PlainGet(fields: seq<Entry<Json>>, k: JsString)
    ensures Keys(PlainFields(fields)) == Keys(fields)
    ensures Get(fields, k).Some? ==> Get(PlainFields(fields), k) == Some(Plain(Get(fields, k).value))
  {
    if fields != [] {
      PlainGet(fields[1..], k);
      var ps := PlainFields(fields);
      assert ps[1..] == PlainFields(fields[1..]);
      assert Keys(ps) == [ps[0].key] + Keys(ps[1..]);
      assert Keys(fields) == [fields[0].key] + Keys(fields[1..]);
    }
  }

  lemma PlainRekey(fields: seq<Entry<Json>>)
    ensures Rekey(PlainFields(fields)) == PlainFields(Rekey(fields))
  {
    PlainGet(fields, []);
    var ks := SortStrings(Keys(fields));
    forall i | 0 <= i < |ks| ensures Rekey(PlainFields(fields))[i] == PlainFields(Rekey(fields))[i] {
      PlainGet(fields, ks[i]);
      PlainFieldsAt(Rekey(fields), i);
    }
  }

  lemma {:induction false} JoinIsMembersText(fields: seq<Entry<Json>>)
    requires fields != []
    ensures Join(MemberTexts(PlainFields(fields))) == MembersText(fields)
  {
    if |fields| > 1 {
      var ps := PlainFields(fields);
      assert ps[1..] == PlainFields(fields[1..]);
      assert MemberTexts(ps)[1..] == MemberTexts(ps[1..]);
      assert MemberTexts(ps[1..]) != [];
      JoinIsMembersText(fields[1..]);
    } else {
      assert MemberTexts(PlainFields(fields))[1..] == [];
    }
  }

  /** The canonical text is the unsorted text of the normal form. */
  lemma {:induction false} CanonicalIsPlainNorm(v: Json)
    ensures Canonical(v) == Plain(Norm(v))
    decreases v, 1
  {
    match v
    case Arr(items) =>
      if items != [] {
        ItemsArePlainNorm(items);
      }
    case Obj(fields) =>
      var es := NormFields(fields);
      FieldsArePlainNorm(fields);
      PlainRekey(es);
      if es != [] {
        JoinIsMembersText(Rekey(es));
      } else {
        assert Rekey(es) == [] && PlainFields(Rekey(es)) == [];
      }
    case _ =>
  }

  lemma {:induction false} ItemsArePlainNorm(items: seq<Json>)
    requires items != []
    ensures Join(CanonicalItems(items)) == ItemsText(NormItems(items))
    decreases items, 0
  {
    var cs, ns := CanonicalItems(items), NormItems(items);
    CanonicalIsPlainNorm(items[0]);
    assert cs[1..] == CanonicalItems(items[1..]) && ns[1..] == NormItems(items[1..]);
    if |items| > 1 {
      ItemsArePlainNorm(items[1..]);
    }
  }

  lemma {:induction false} FieldsArePlainNorm(fields: seq<Entry<Json>>)
    ensures CanonicalFields(fields) == PlainFields(NormFields(fields))
    decreases fields, 0
  {
    if fields != [] {
      FieldsArePlainNorm(fields[1..]);
      if fields[0].val != Undefined {
        CanonicalIsPlainNorm(fields[0].val);
        var ns := NormFields(fields);
        assert ns[1..] == NormFields(fields[1..]);
      }
    }
  }

  // ---- Parsing what was printed ----

  /** A printed value starts with none of these, so no caller mistakes it for a closing mark. */
  predicate Starts(s: JsString)
  {
    s != [] && !IsWs(s[0]) && s[0] != RBRACKET && s[0] != RBRACE
  }

  lemma WordParses(word: JsString, v: Json, rest: JsString)
    requires word != []
    ensures Literal(word + rest, word, v) == Some((v, rest))
  {
    assert (word + rest)[..|word|] == word && (word + rest)[|word|..] == rest;
  }

  lemma StringParses(cs: JsString, rest: JsString)
    ensures ParseString((Quote(cs) + rest)[1..]) == Some((Str(cs), rest))
  {
    assert (Quote(cs) + rest)[1..] == EscapeAll(cs) + [QUOTE] + rest;
    CharsParse(cs, rest);
  }

  lemma {:induction false} ValueParses(v: Json, rest: JsString)
    requires IsJson(v) && Stops(rest)
    ensures ParseValue(Plain(v) + rest) == Some((v, rest))
    ensures Starts(Plain(v))
    decreases v, 1
  {
    var s := Plain(v) + rest;
    match v
    case Null => WordParses(NULL, Null, rest);
    case Bool(b) => WordParses(if b then TRUE else FALSE, v, rest);
    case Num(n) => NumberParses(n, rest);
    case Str(cs) => StringParses(cs, rest);
    case Arr(items) => ArrayParses(items, rest); assert s[0] == LBRACKET;
    case Obj(fields) => ObjectParses(fields, rest); assert s[0] == LBRACE;
  }

  lemma DropFirst(c: Unit, x: JsString, d: Unit, rest: JsString)
    ensures ([c] + x + [d] + rest)[1..] == x + ([d] + rest)
    ensures ([c, d] + rest)[1..] == [d] + rest && ([d] + rest)[1..] == rest
  {
  }

  lemma {:induction false} ArrayParses(items: seq<Json>, rest: JsString)
    requires forall i :: 0 <= i < |items| ==> IsJson(items[i])
    ensures ParseArray((Plain(Arr(items)) + rest)[1..]) == Some((Arr(items), rest))
    decreases items, 1
  {
    if items == [] {
      DropFirst(LBRACKET, [], RBRACKET, rest);
    } else {
      DropFirst(LBRACKET, ItemsText(items), RBRACKET, rest);
      ItemsParse(items, rest);
    }
  }

  lemma {:induction false} ObjectParses(fields: seq<Entry<Json>>, rest: JsString)
    requires Distinct(Keys(fields)) && forall i :: 0 <= i < |fields| ==> IsJson(fields[i].val)
    ensures ParseObject((Plain(Obj(fields)) + rest)[1..]) == Some((Obj(fields), rest))
    decreases fields, 1
  {
    if fields == [] {
      DropFirst(LBRACE, [], RBRACE, rest);
    } else {
      DropFirst(LBRACE, MembersText(fields), RBRACE, rest);
      MembersParse(fields, rest);
    }
  }

  lemma {:induction false} ItemsParse(items: seq<Json>, rest: JsString)
    requires items != [] && forall i :: 0 <= i < |items| ==> IsJson(items[i])
    ensures ParseItems(ItemsText(items) + ([RBRACKET] + rest)) == Some((items, rest))
    ensures Starts(ItemsText(items))
    decreases items, 0
  {
    if |items| == 1 {
      var after := [RBRACKET] + rest;
      ValueParses(items[0], after);
      assert SkipWs(after) == after && after[1..] == rest;
      assert items == [items[0]];
    } else {
      var tail := ItemsText(items[1..]) + ([RBRACKET] + rest);
      var after := [COMMA] + tail;
      assert ItemsText(items) + ([RBRACKET] + rest) == Plain(items[0]) + after;
      ValueParses(items[0], after);
      assert SkipWs(after) == after && after[1..] == tail;
      ItemsParse(items[1..], rest);
      assert items == [items[0]] + items[1..];
    }
  }

  /** Parsing past one member leaves the text after it. */
  lemma MemberStep(e: Entry<Json>, p: JsString, after: JsString)
    requires ParseValue(p + after) == Some((e.val, after))
    requires Stops(after) && after != []
    ensures var text := Quote(e.key) + ([COLON] + (p + after));
            ParseMembers(text) ==
              if after[0] == RBRACE then Some(([e], after[1..]))
              else if after[0] == COMMA then AddMember(e, ParseMembers(after[1..]))
              else None
  {
    NameParses(e.key, p + after);
    assert SkipWs(after) == after;
  }

  lemma FreshFirstKey(fields: seq<Entry<Json>>)
    requires fields != [] && Distinct(Keys(fields))
    ensures Distinct(Keys(fields[1..])) && Get(fields[1..], fields[0].key).None?
  {
    assert Keys(fields[1..]) == Keys(fields)[1..];
    assert forall i :: 1 <= i < |fields| ==> Keys(fields)[0] != Keys(fields)[i];
  }

  lemma Reassociate(q: JsString, p: JsString, tail: JsString)
    ensures q + ([COLON] + p) + tail == q + ([COLON] + (p + tail))
  {
  }

  lemma LastMember(e: Entry<Json>, p: JsString, rest: JsString)
    requires ParseValue(p + ([RBRACE] + rest)) == Some((e.val, [RBRACE] + rest))
    ensures ParseMembers(Quote(e.key) + ([COLON] + p) + ([RBRACE] + rest)) == Some(([e], rest))
  {
    var after := [RBRACE] + rest;
    Reassociate(Quote(e.key), p, after);
    MemberStep(e, p, after);
    assert after[1..] == rest;
  }

  lemma NextMember(e: Entry<Json>, p: JsString, tail: JsString, more: seq<Entry<Json>>, rest: JsString)
    requires ParseValue(p + ([COMMA] + tail)) == Some((e.val, [COMMA] + tail))
    requires ParseMembers(tail) == Some((more, rest)) && Get(more, e.key).None?
    ensures ParseMembers(Quote(e.key) + ([COLON] + p) + ([COMMA] + tail)) == Some(([e] + more, rest))
  {
    var after := [COMMA] + tail;
    Reassociate(Quote(e.key), p, after);
    MemberStep(e, p, after);
    assert after[1..] == tail;
  }

  lemma {:induction false} MembersParse(fields: seq<Entry<Json>>, rest: JsString)
    requires fields != [] && Distinct(Keys(fields))
    requires forall i :: 0 <= i < |fields| ==> IsJson(fields[i].val)
    ensures ParseMembers(MembersText(fields) + ([RBRACE] + rest)) == Some((fields, rest))
    ensures Starts(MembersText(fields))
    decreases fields, 0
  {
    var e := fields[0];
    var q, p := Quote(e.key), Plain(e.val);
    if |fields| == 1 {
      ValueParses(e.val, [RBRACE] + rest);
      LastMember(e, p, rest);
      assert fields == [e];
    } else {
      var tail := MembersText(fields[1..]) + ([RBRACE] + rest);
      FreshFirstKey(fields);
      MembersParse(fields[1..], rest);
      ValueParses(e.val, [COMMA] + tail);
      NextMember(e, p, tail, fields[1..], rest);
      AfterComma(q + ([COLON] + p), MembersText(fields[1..]), [RBRACE] + rest);
      assert fields == [e] + fields[1..];
    }
    MembersStart(fields);
  }

  lemma AfterComma(first: JsString, more: JsString, end: JsString)
    ensures (first + ([COMMA] + more)) + end == first + ([COMMA] + (more + end))
  {
  }

  lemma MembersStart(fields: seq<Entry<Json>>)
    requires fields != []
    ensures Starts(MembersText(fields))
  {
    assert MembersText(fields)[0] == Quote(fields[0].key)[0];
  }

  lemma NameParses(key: JsString, t: JsString)
    ensures ParseName(Quote(key) + ([COLON] + t)) == Some((key, t))
  {
    var s := Quote(key) + ([COLON] + t);
    assert SkipWs(s) == s;
    assert s[1..] == EscapeAll(key) + [QUOTE] + ([COLON] + t);
    CharsParse(key, [COLON] + t);
    assert SkipWs([COLON] + t) == [COLON] + t && ([COLON] + t)[1..] == t;
  }

  // ---- The normal form is JSON, and a fixed point ----

  lemma {:induction false} NormIsJson(v: Json)
    requires WellFormed(v)
    ensures IsJson(Norm(v))
    decreases v
  {
    match v
    case Arr(items) =>
      forall i | 0 <= i < |items| ensures IsJson(NormItems(items)[i]) {
        NormIsJson(items[i]);
      }
    case Obj(fields) =>
      var es := NormFields(fields);
      NormFieldsKeys(fields);
      RekeyKeeps(es);
      forall i | 0 <= i < |Rekey(es)| ensures IsJson(Rekey(es)[i].val) {
        var k := Rekey(es)[i].key;
        assert Keys(Rekey(es))[i] == k;
        var j :| 0 <= j < |fields| && fields[j].key == k && fields[j].val != Undefined;
        NormFieldsAt(fields, j);
        GetAt(Rekey(es), i);
        NormIsJson(fields[j].val);
      }
    case _ =>
  }

  /** The printer is invertible: parsing its output gives the value with its keys sorted. */
  lemma CanonicalRoundTrip(v: Json)
    requires WellFormed(v)
    ensures Parse(Canonical(v)) == Some(Norm(v))
  {
    CanonicalIsPlainNorm(v);
    NormIsJson(v);
    ValueParses(Norm(v), []);
    assert Plain(Norm(v)) + [] == Plain(Norm(v));
  }

  /** The canonical bytes decide equality up to key order. */
  lemma CanonicalDecides(v: Json, w: Json)
    requires WellFormed(v) && WellFormed(w)
    ensures Canonical(v) == Canonical(w) <==> Same(v, w)
  {
    CanonicalRoundTrip(v);
    CanonicalRoundTrip(w);
    if Canonical(v) == Canonical(w) {
      NormThenSame(v, w);
    }
    if Same(v, w) {
      SameThenNorm(v, w);
      CanonicalIsPlainNorm(v);
      CanonicalIsPlainNorm(w);
    }
  }

  /** Enumerating the properties of an object in another order prints the same bytes. */
  lemma InsertionOrderIrrelevant(fields: seq<Entry<Json>>, other: seq<Entry<Json>>)
    requires WellFormed(Obj(fields)) && WellFormed(Obj(other))
    requires forall e :: e in fields <==> e in other
    ensures Canonical(Obj(fields)) == Canonical(Obj(other))
  {
    SameMembers(fields, other);
    CanonicalDecides(Obj(fields), Obj(other));
  }

  lemma SameMembers(fields: seq<Entry<Json>>, other: seq<Entry<Json>>)
    requires WellFormed(Obj(fields)) && Distinct(Keys(other))
    requires forall e :: e in fields <==> e in other
    ensures Same(Obj(fields), Obj(other))
  {
    forall k ensures Has(fields, k) <==> Has(other, k) {
      HasMember(fields, other, k);
      HasMember(other, fields, k);
    }
    forall i, j | 0 <= i < |fields| && 0 <= j < |other| && fields[i].key == other[j].key
      ensures Same(fields[i].val, other[j].val)
    {
      UniqueMember(fields, i, other[j]);
      NormThenSame(fields[i].val, fields[i].val);
    }
  }

  lemma UniqueMember(fields: seq<Entry<Json>>, i: nat, e: Entry<Json>)
    requires Distinct(Keys(fields)) && i < |fields| && e in fields && fields[i].key == e.key
    ensures fields[i] == e
  {
    var m :| 0 <= m < |fields| && fields[m] == e;
    assert Keys(fields)[i] == Keys(fields)[m];
  }

  lemma HasMember(fields: seq<Entry<Json>>, other: seq<Entry<Json>>, k: JsString)
    requires forall e :: e in fields ==> e in other
    ensures Has(fields, k) ==> Has(other, k)
  {
    if Has(fields, k) {
      var i :| 0 <= i < |fields| && fields[i].key == k && fields[i].val != Undefined;
      assert fields[i] in other;
      var j :| 0 <= j < |other| && other[j] == fields[i];
    }
  }

  // ---- Every output character is printable ASCII ----

  predicate Printable(s: JsString)
  {
    forall i :: 0 <= i < |s| ==> 0x20 <= s[i] <= 0x7E
  }

  lemma {:induction false} QuotePrintable(s: JsString)
    ensures Printable(EscapeAll(s))
  {
    if s != [] {
      QuotePrintable(s[1..]);
    }
  }

  lemma {:induction false} PlainPrintable(v: Json)
    ensures Printable(Plain(v))
    decreases v, 1
  {
    match v
    case Str(s) => QuotePrintable(s);
    case Arr(items) => if items != [] { ItemsPrintable(items); }
    case Obj(fields) => if fields != [] { MembersPrintable(fields); }
    case _ =>
  }

  lemma {:induction false} ItemsPrintable(items: seq<Json>)
    requires items != []
    ensures Printable(ItemsText(items))
    decreases items, 0
  {
    PlainPrintable(items[0]);
    if |items| > 1 {
      ItemsPrintable(items[1..]);
    }
  }

  lemma {:induction false} MembersPrintable(fields: seq<Entry<Json>>)
    requires fields != []
    ensures Printable(MembersText(fields))
    decreases fields, 0
  {
    QuotePrintable(fields[0].key);
    PlainPrintable(fields[0].val);
    if |fields| > 1 {
      MembersPrintable(fields[1..]);
    }
  }

  lemma CanonicalPrintable(v: Json)
    ensures Printable(Canonical(v))
  {
    CanonicalIsPlainNorm(v);
    PlainPrintable(Norm(v));
  }
}
