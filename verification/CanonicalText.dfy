/** The canonical text itself: the order of its names, its escapes, and that nothing separates its parts
    but the commas and colons. */
module CanonicalText {
  import opened Options
  import opened JsText
  import opened CanonicalJson
  import opened CanonicalJsonOrder
  import opened CanonicalJsonRoundTrip
  import opened CanonicalPrinter
  import opened JsonParser

  // ---- Names ascend by code units ----

  /** `b` goes on where `a` ends, or has the greater unit where they first differ. */
  ghost predicate Precedes(a: JsString, b: JsString)
  {
    a <= b || exists n: nat :: DifferAt(a, b, n) && a[n] < b[n]
  }

  ghost predicate DifferAt(a: JsString, b: JsString, n: nat)
  {
    n < |a| && n < |b| && a[..n] == b[..n] && a[n] != b[n]
  }

  lemma DifferLater(a: JsString, b: JsString, n: nat)
    requires a != [] && b != [] && a[0] == b[0]
    ensures DifferAt(a, b, n + 1) <==> DifferAt(a[1..], b[1..], n)
  {
    if n < |a[1..]| && n < |b[1..]| {
      assert a[..n + 1] == [a[0]] + a[1..][..n] && b[..n + 1] == [b[0]] + b[1..][..n];
      assert a[..n + 1][1..] == a[1..][..n] && b[..n + 1][1..] == b[1..][..n];
    }
  }

  /** The order the printer sorts by is the order of code units. */
  lemma {:induction false} LeqIff(a: JsString, b: JsString)
    ensures Leq(a, b) <==> Precedes(a, b)
  {
    if a != [] && b != [] {
      if a[0] == b[0] {
        LeqIff(a[1..], b[1..]);
        PrecedesTail(a, b);
      } else {
        assert DifferAt(a, b, 0);
        assert forall n: nat :: DifferAt(a, b, n) && n > 0 ==> a[..n][0] == a[0] && b[..n][0] == b[0];
      }
    }
  }

  lemma PrefixTail(a: JsString, b: JsString)
    requires a != [] && b != [] && a[0] == b[0]
    ensures a <= b <==> a[1..] <= b[1..]
  {
    if a <= b {
      assert a[1..] == b[1..][..|a| - 1];
    }
    if a[1..] <= b[1..] {
      assert a == [a[0]] + a[1..] && b == [b[0]] + b[1..];
      assert b[..|a|] == [b[0]] + b[1..][..|a| - 1];
    }
  }

  lemma PrecedesTail(a: JsString, b: JsString)
    requires a != [] && b != [] && a[0] == b[0]
    ensures Precedes(a, b) <==> Precedes(a[1..], b[1..])
  {
    PrefixTail(a, b);
    if n: nat :| DifferAt(a, b, n) && a[n] < b[n] {
      assert n > 0;
      DifferLater(a, b, n - 1);
      assert DifferAt(a[1..], b[1..], n - 1) && a[1..][n - 1] < b[1..][n - 1];
    }
    if n: nat :| DifferAt(a[1..], b[1..], n) && a[1..][n] < b[1..][n] {
      DifferLater(a, b, n);
      assert DifferAt(a, b, n + 1) && a[n + 1] < b[n + 1];
    }
  }

  /** In every object of the value, each name precedes every later one. */
  ghost predicate NamesAscend(v: Json)
  {
    match v
    case Arr(items) => forall i :: 0 <= i < |items| ==> NamesAscend(items[i])
    case Obj(fields) =>
      && (forall i, j :: 0 <= i < j < |fields| ==> Precedes(fields[i].key, fields[j].key))
      && (forall i :: 0 <= i < |fields| ==> NamesAscend(fields[i].val))
    case _ => true
  }

  lemma {:induction false} NormAscends(v: Json)
    requires WellFormed(v)
    ensures NamesAscend(Norm(v))
    decreases v
  {
    match v
    case Arr(items) =>
      forall i | 0 <= i < |items| ensures NamesAscend(Norm(items[i])) { NormAscends(items[i]); }
    case Obj(fields) =>
      var es := NormFields(fields);
      NormFieldsKeys(fields);
      SortStringsSorts(Keys(es));
      forall i, j | 0 <= i < j < |Rekey(es)| ensures Precedes(Rekey(es)[i].key, Rekey(es)[j].key) {
        LeqIff(Rekey(es)[i].key, Rekey(es)[j].key);
      }
      forall i | 0 <= i < |Rekey(es)| ensures NamesAscend(Rekey(es)[i].val) {
        var k := Rekey(es)[i].key;
        assert k in Keys(es);
        var j :| 0 <= j < |fields| && fields[j].key == k && fields[j].val != Undefined;
        NormFieldsAt(fields, j);
        NormAscends(fields[j].val);
      }
    case _ =>
  }

  /** Of any two names of one object in a canonical text, the earlier is a prefix of the later or has the
      smaller code unit where they first differ. */
  lemma PrintedNamesAscend(v: Json)
    requires WellFormed(v)
    ensures Parse(Canonical(v)).Some? && NamesAscend(Parse(Canonical(v)).value)
  {
    CanonicalRoundTrip(v);
    NormAscends(v);
  }

  // ---- Escapes ----

  predicate LowerHex(u: Unit)
  {
    0x30 <= u <= 0x39 || 0x61 <= u <= 0x66
  }

  /** A printable unit other than quote and backslash stands for itself; those two and the five controls
      with a short escape take two units, a backslash first; every other takes six, in lower case. */
  lemma EscapeForms(u: Unit)
    ensures var e := EscapeUnit(u);
            && (e == [u] <==> 0x20 <= u <= 0x7E && u != 0x22 && u != 0x5C)
            && (|e| == 2 <==> u == 0x22 || u == 0x5C || u == 8 || u == 9 || u == 10 || u == 12 || u == 13)
            && (|e| == 1 || |e| == 2 || |e| == 6)
            && (|e| > 1 ==> e[0] == 0x5C)
            && (|e| == 6 ==> e[1] == 0x75 && forall i :: 2 <= i < 6 ==> LowerHex(e[i]))
  {
  }

  function EscapesOf(s: JsString): seq<JsString>
  {
    seq(|s|, i requires 0 <= i < |s| => EscapeUnit(s[i]))
  }

  function Flat(parts: seq<JsString>): JsString
  {
    if parts == [] then [] else parts[0] + Flat(parts[1..])
  }

  /** A printed string is its units, each escaped by itself, between quotes. */
  lemma StringText(s: JsString)
    ensures Canonical(Str(s)) == [0x22] + Flat(EscapesOf(s)) + [0x22]
  {
    EscapedFlat(s);
  }

  lemma {:induction false} EscapedFlat(s: JsString)
    ensures EscapeAll(s) == Flat(EscapesOf(s))
  {
    if s != [] {
      EscapedFlat(s[1..]);
      assert EscapesOf(s)[1..] == EscapesOf(s[1..]);
    }
  }

  /** The words, and the digits of a number. */
  lemma ScalarTexts(n: SafeInt)
    ensures Canonical(Null) == Lit("null") == Canonical(Undefined)
    ensures Canonical(Bool(true)) == Lit("true") && Canonical(Bool(false)) == Lit("false")
    ensures Canonical(Num(n)) == if n < 0 then [0x2D] + Canonical(Num(-n))
                                 else if n < 10 then [0x30 + n]
                                 else Canonical(Num(n / 10)) + [0x30 + n % 10]
  {
    assert Lit("null") == NULL && Lit("true") == TRUE && Lit("false") == FALSE;
  }

  // ---- Nothing between the parts ----

  lemma {:induction false} JoinMore(parts: seq<JsString>, p: JsString)
    ensures Join(parts + [p]) == if parts == [] then p else Join(parts) + [0x2C] + p
  {
    if parts != [] {
      assert (parts + [p])[1..] == parts[1..] + [p];
      JoinMore(parts[1..], p);
      if |parts| > 1 {
        assert parts[0] + [COMMA] + (Join(parts[1..]) + [0x2C] + p) == (parts[0] + [COMMA] + Join(parts[1..])) + [0x2C] + p;
      } else {
        assert parts == [parts[0]];
      }
    }
  }

  /** What stands between the brackets. */
  function Within(text: JsString): JsString
    requires |text| >= 2
  {
    text[1..|text| - 1]
  }

  /** `more` after `inner`, with a comma between them when there is something before it. */
  function After(inner: JsString, more: JsString): JsString
  {
    if inner == [] then more else inner + [0x2C] + more
  }

  /** An item appended to an array is printed after a comma and nothing else. */
  lemma ArrayText(items: seq<Json>, v: Json)
    ensures Canonical(Arr([])) == [0x5B, 0x5D]
    ensures |Canonical(Arr(items))| >= 2
    ensures Canonical(Arr(items + [v])) == [0x5B] + After(Within(Canonical(Arr(items))), Canonical(v)) + [0x5D]
  {
    var inner := Join(CanonicalItems(items));
    assert Within(Canonical(Arr(items))) == inner;
    ItemsMore(items, v);
    JoinMore(CanonicalItems(items), Canonical(v));
    JoinedItemsEmpty(items);
    assert Canonical(Arr([])) == [0x5B] + [] + [0x5D];
  }

  lemma {:induction false} NotEmpty(v: Json)
    ensures Canonical(v) != []
  {
  }

  lemma JoinedItemsEmpty(items: seq<Json>)
    ensures Join(CanonicalItems(items)) == [] <==> items == []
  {
    if items != [] {
      NotEmpty(items[0]);
    }
  }

  ghost predicate AllPrecede(fields: seq<Entry<Json>>, k: JsString)
  {
    forall i :: 0 <= i < |fields| ==> Precedes(fields[i].key, k)
  }

  /** A property whose name comes after all the others is printed last, after a comma, as its quoted name,
      a colon and its value; an undefined one is not printed. */
  lemma ObjectText(fields: seq<Entry<Json>>, e: Entry<Json>)
    requires WellFormed(Obj(fields + [e]))
    requires AllPrecede(fields, e.key)
    ensures Canonical(Obj([])) == [0x7B, 0x7D]
    ensures |Canonical(Obj(fields))| >= 2
    ensures Canonical(Obj(fields + [e]))
            == if e.val == Undefined then Canonical(Obj(fields))
               else [0x7B] + After(Within(Canonical(Obj(fields))), Canonical(Str(e.key)) + [0x3A] + Canonical(e.val)) + [0x7D]
  {
    var es := Rekey(CanonicalFields(fields));
    var inner := Join(MemberTexts(es));
    assert Within(Canonical(Obj(fields))) == inner;
    assert Canonical(Obj([])) == [0x7B] + [] + [0x7D];
    FieldsMore(fields, e);
    if e.val != Undefined {
      var last := Entry(e.key, Canonical(e.val));
      NamesBefore(fields, e);
      RekeyMore(CanonicalFields(fields), last);
      MemberAfter(es, last);
    } else {
      assert CanonicalFields(fields) + [] == CanonicalFields(fields);
    }
  }

  lemma {:induction false} FieldsMore(fields: seq<Entry<Json>>, e: Entry<Json>)
    ensures CanonicalFields(fields + [e])
            == CanonicalFields(fields) + if e.val == Undefined then [] else [Entry(e.key, Canonical(e.val))]
  {
    if fields == [] {
      assert (fields + [e])[1..] == [];
    } else {
      assert (fields + [e])[1..] == fields[1..] + [e];
      FieldsMore(fields[1..], e);
    }
  }

  lemma MemberAfter(es: Members, last: Entry<JsString>)
    ensures Join(MemberTexts(es + [last])) == After(Join(MemberTexts(es)), Quote(last.key) + [0x3A] + last.val)
  {
    MemberTextsMore(es, last);
    assert Quote(last.key) + ([COLON] + last.val) == Quote(last.key) + [0x3A] + last.val;
    JoinMore(MemberTexts(es), Quote(last.key) + [0x3A] + last.val);
    JoinedMembersEmpty(es);
  }

  lemma JoinedMembersEmpty(es: Members)
    ensures Join(MemberTexts(es)) == [] <==> es == []
  {
  }

  lemma NamesBefore(fields: seq<Entry<Json>>, e: Entry<Json>)
    requires Distinct(Keys(fields + [e]))
    requires AllPrecede(fields, e.key)
    ensures Distinct(Keys(CanonicalFields(fields)))
    ensures forall k :: k in Keys(CanonicalFields(fields)) ==> Leq(k, e.key) && k != e.key
  {
    DistinctInit(fields, e);
    PrintedKeys(fields);
    var ks := Keys(CanonicalFields(fields));
    forall i | 0 <= i < |ks| ensures Leq(ks[i], e.key) && ks[i] != e.key {
      assert ks[i] in ks;
      NameBefore(fields, e, ks[i]);
    }
  }

  lemma PrintedKeys(fields: seq<Entry<Json>>)
    requires Distinct(Keys(fields))
    ensures Distinct(Keys(CanonicalFields(fields)))
    ensures forall k :: k in Keys(CanonicalFields(fields)) ==> Has(fields, k)
  {
    CanonicalFieldsKeys(fields);
    NormFieldsKeys(fields);
  }

  lemma NameBefore(fields: seq<Entry<Json>>, e: Entry<Json>, k: JsString)
    requires Distinct(Keys(fields + [e])) && Has(fields, k)
    requires AllPrecede(fields, e.key)
    ensures Leq(k, e.key) && k != e.key
  {
    var i :| 0 <= i < |fields| && fields[i].key == k && fields[i].val != Undefined;
    LeqIff(k, e.key);
    assert Keys(fields + [e])[i] == k && Keys(fields + [e])[|fields|] == e.key;
  }

  lemma DistinctInit(fields: seq<Entry<Json>>, e: Entry<Json>)
    requires Distinct(Keys(fields + [e]))
    ensures Distinct(Keys(fields))
  {
    forall i, j | 0 <= i < j < |fields| ensures Keys(fields)[i] != Keys(fields)[j] {
      assert Keys(fields + [e])[i] == Keys(fields)[i] && Keys(fields + [e])[j] == Keys(fields)[j];
    }
  }

  lemma RekeyMore(cs: Members, last: Entry<JsString>)
    requires Distinct(Keys(cs)) && forall k :: k in Keys(cs) ==> Leq(k, last.key) && k != last.key
    ensures Rekey(cs + [last]) == Rekey(cs) + [last]
  {
    var es := Rekey(cs) + [last];
    RekeyKeeps(cs);
    SortStringsSorts(Keys(cs));
    KeysMore(cs, last);
    KeysMore(Rekey(cs), last);
    assert Keys(Rekey(cs)) == SortStrings(Keys(cs));
    assert last.key !in Keys(cs) && last.key !in Keys(Rekey(cs));
    forall k | k in Keys(es) ensures Get(cs + [last], k) == Get(es, k) {
      GetMore(cs, last, k);
      GetMore(Rekey(cs), last, k);
    }
    RekeyEqual(cs + [last], es);
    RekeySorted(es);
  }
}
