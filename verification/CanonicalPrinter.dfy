/** The canonical printer as it runs: sort the property names, then print one property after the other.
    It prints what `Canonical` says, which prints first and sorts afterwards. */
module CanonicalPrinter {
  import opened Options
  import opened JsText
  import opened CanonicalJson
  import opened CanonicalJsonOrder

  type Members = seq<Entry<JsString>>

  /** The printed properties among `keys`, in that order. */
  function Printed(fields: seq<Entry<Json>>, keys: seq<JsString>): Members
    requires forall k :: k in keys ==> k in Keys(fields)
  {
    if keys == [] then []
    else
      var k := keys[|keys| - 1];
      var v := Get(fields, k).value;
      Printed(fields, keys[..|keys| - 1]) + if v == Undefined then [] else [Entry(k, Canonical(v))]
  }

  lemma KeysMore<T>(es: seq<Entry<T>>, e: Entry<T>)
    ensures Keys(es + [e]) == Keys(es) + [e.key]
  {
  }

  lemma {:induction false} GetMore<T>(es: seq<Entry<T>>, e: Entry<T>, k: JsString)
    requires e.key !in Keys(es)
    ensures Get(es + [e], k) == if k == e.key then Some(e.val) else Get(es, k)
  {
    if es != [] {
      assert (es + [e])[1..] == es[1..] + [e];
      assert Keys(es) == [es[0].key] + Keys(es[1..]);
      GetMore(es[1..], e, k);
    }
  }

  lemma HasGet(fields: seq<Entry<Json>>, k: JsString)
    requires Distinct(Keys(fields)) && k in Keys(fields)
    ensures Has(fields, k) <==> Get(fields, k) != Some(Undefined)
  {
    var i := GetFrom(fields, k);
    if Has(fields, k) {
      var j :| 0 <= j < |fields| && fields[j].key == k && fields[j].val != Undefined;
      GetAt(fields, j);
    }
  }

  lemma SortedMore(keys: seq<JsString>, some: seq<JsString>, k: JsString)
    requires Sorted(keys + [k]) && Sorted(some) && forall s :: s in some ==> s in keys
    ensures Sorted(some + [k])
  {
    forall i | 0 <= i < |some| ensures Leq(some[i], k) {
      assert some[i] in some;
      var j :| 0 <= j < |keys| && keys[j] == some[i];
      assert (keys + [k])[j] == some[i] && (keys + [k])[|keys|] == k;
    }
  }

  /** What the printed properties hold: the names of the defined ones, in order, with their texts. */
  lemma {:induction false} PrintedHolds(fields: seq<Entry<Json>>, keys: seq<JsString>)
    requires Distinct(Keys(fields)) && Distinct(keys) && Sorted(keys)
    requires forall k :: k in keys ==> k in Keys(fields)
    ensures var es := Printed(fields, keys);
            && Sorted(Keys(es)) && Distinct(Keys(es))
            && (forall k :: k in Keys(es) <==> k in keys && Has(fields, k))
            && (forall k :: k in Keys(es) ==> Get(es, k) == Some(Canonical(Get(fields, k).value)))
  {
    if keys != [] {
      var init, k := keys[..|keys| - 1], keys[|keys| - 1];
      assert keys == init + [k] && k !in init;
      PrintedHolds(fields, init);
      HasGet(fields, k);
      var es := Printed(fields, init);
      if Has(fields, k) {
        var e := Entry(k, Canonical(Get(fields, k).value));
        KeysMore(es, e);
        SortedMore(init, Keys(es), k);
        forall s | s in Keys(es + [e]) ensures Get(es + [e], s) == Some(Canonical(Get(fields, s).value)) {
          GetMore(es, e, s);
        }
        assert Printed(fields, keys) == es + [e];
      } else {
        assert Printed(fields, keys) == es;
      }
    }
  }

  lemma {:induction false} CanonicalFieldsKeys(fields: seq<Entry<Json>>)
    ensures Keys(CanonicalFields(fields)) == Keys(NormFields(fields))
  {
    if fields != [] {
      CanonicalFieldsKeys(fields[1..]);
      if fields[0].val != Undefined {
        assert Keys(CanonicalFields(fields)) == [fields[0].key] + Keys(CanonicalFields(fields[1..]));
        assert Keys(NormFields(fields)) == [fields[0].key] + Keys(NormFields(fields[1..]));
      }
    }
  }

  lemma {:induction false} CanonicalFieldsAt(fields: seq<Entry<Json>>, i: nat)
    requires Distinct(Keys(fields)) && i < |fields| && fields[i].val != Undefined
    ensures Get(CanonicalFields(fields), fields[i].key) == Some(Canonical(fields[i].val))
  {
    if i > 0 {
      assert Keys(fields)[0] != Keys(fields)[i];
      assert Keys(fields[1..]) == Keys(fields)[1..];
      CanonicalFieldsAt(fields[1..], i - 1);
    }
  }

  /** A list already in key order is its own sorted form. */
  lemma RekeySorted(es: Members)
    requires Sorted(Keys(es)) && Distinct(Keys(es))
    ensures Rekey(es) == es
  {
    SortStringsSorts(Keys(es));
    SortedUnique(SortStrings(Keys(es)), Keys(es));
    forall i | 0 <= i < |es| ensures Rekey(es)[i] == es[i] {
      GetAt(es, i);
    }
  }

  /** Sorting the names first and printing in that order is printing and sorting afterwards. */
  lemma PrintedIsSorted(fields: seq<Entry<Json>>, keys: seq<JsString>)
    requires Distinct(Keys(fields)) && keys == SortStrings(Keys(fields))
    ensures Printed(fields, keys) == Rekey(CanonicalFields(fields))
  {
    SortStringsSorts(Keys(fields));
    SameMultisetDistinct(Keys(fields), keys);
    PrintedHolds(fields, keys);
    var es, cs := Printed(fields, keys), CanonicalFields(fields);
    CanonicalFieldsKeys(fields);
    NormFieldsKeys(fields);
    forall k ensures k in Keys(es) <==> k in Keys(cs) {
      if Has(fields, k) {
        var j :| 0 <= j < |fields| && fields[j].key == k && fields[j].val != Undefined;
        assert Keys(fields)[j] == k;
      }
    }
    forall k | k in Keys(es) ensures Get(es, k) == Get(cs, k) {
      var i := GetFrom(fields, k);
      HasGet(fields, k);
      CanonicalFieldsAt(fields, i);
    }
    RekeyEqual(es, cs);
    RekeySorted(es);
  }

  lemma {:induction false} MemberTextsMore(es: Members, e: Entry<JsString>)
    ensures MemberTexts(es + [e]) == MemberTexts(es) + [Quote(e.key) + ([COLON] + e.val)]
  {
    if es == [] {
      assert [e][1..] == [];
    } else {
      assert (es + [e])[1..] == es[1..] + [e];
      MemberTextsMore(es[1..], e);
    }
  }

  lemma {:induction false} ItemsMore(items: seq<Json>, v: Json)
    ensures CanonicalItems(items + [v]) == CanonicalItems(items) + [Canonical(v)]
  {
    if items == [] {
      assert [v][1..] == [];
    } else {
      assert (items + [v])[1..] == items[1..] + [v];
      ItemsMore(items[1..], v);
    }
  }

  lemma {:induction false} GetSmaller(fields: seq<Entry<Json>>, k: JsString)
    requires k in Keys(fields)
    ensures Get(fields, k).value < Obj(fields)
    decreases |fields|
  {
    var i := GetFrom(fields, k);
    assert fields[i].val < Obj(fields);
  }

  lemma PrefixIn(keys: seq<JsString>, i: nat)
    requires i <= |keys|
    ensures forall k :: k in keys[..i] ==> k in keys
  {
  }

  lemma PrintedNext(fields: seq<Entry<Json>>, before: seq<JsString>, k: JsString)
    requires k in Keys(fields) && forall s :: s in before ==> s in Keys(fields)
    ensures forall s :: s in before + [k] ==> s in Keys(fields)
    ensures var v := Get(fields, k).value;
            MemberTexts(Printed(fields, before + [k]))
            == MemberTexts(Printed(fields, before)) + if v == Undefined then [] else [Quote(k) + ([COLON] + Canonical(v))]
  {
    var keys, v := before + [k], Get(fields, k).value;
    assert keys[..|keys| - 1] == before && keys[|keys| - 1] == k;
    if v != Undefined {
      MemberTextsMore(Printed(fields, before), Entry(k, Canonical(v)));
    } else {
      assert Printed(fields, keys) == Printed(fields, before);
      assert MemberTexts(Printed(fields, before)) + [] == MemberTexts(Printed(fields, before));
    }
  }

  /** `canonicalJson`. */
  method PrintCanonical(v: Json) returns (text: JsString)
    requires WellFormed(v)
    ensures text == Canonical(v)
    decreases v, 1
  {
    match v
    case Undefined => text := NULL;
    case Null => text := NULL;
    case Bool(b) => text := if b then TRUE else FALSE;
    case Num(n) => text := Decimal(n);
    case Str(s) => text := Quote(s);
    case Arr(items) =>
      var elements: seq<JsString> := [];
      for i := 0 to |items|
        invariant elements == CanonicalItems(items[..i])
      {
        var element := PrintCanonical(items[i]);
        ItemsMore(items[..i], items[i]);
        assert items[..i + 1] == items[..i] + [items[i]];
        elements := elements + [element];
      }
      assert items[..|items|] == items;
      text := [LBRACKET] + Join(elements) + [RBRACKET];
    case Obj(fields) =>
      var entries := PrintMembers(fields);
      text := [LBRACE] + Join(entries) + [RBRACE];
  }

  method PrintMembers(fields: seq<Entry<Json>>) returns (entries: seq<JsString>)
    requires WellFormed(Obj(fields))
    ensures entries == MemberTexts(Rekey(CanonicalFields(fields)))
    decreases Obj(fields), 0
  {
    var keys := SortStrings(Keys(fields));
    entries := [];
    for i := 0 to |keys|
      invariant forall k :: k in keys[..i] ==> k in keys
      invariant entries == MemberTexts(Printed(fields, keys[..i]))
    {
      var k := keys[i];
      var at := GetFrom(fields, k);
      var v := Get(fields, k).value;
      GetSmaller(fields, k);
      PrefixIn(keys, i);
      PrefixIn(keys, i + 1);
      PrintedNext(fields, keys[..i], k);
      assert keys[..i + 1] == keys[..i] + [k];
      if v != Undefined {
        var text := PrintCanonical(v);
        entries := entries + [Quote(k) + ([COLON] + text)];
      }
    }
    assert keys[..|keys|] == keys;
    PrintedIsSorted(fields, keys);
  }
}
