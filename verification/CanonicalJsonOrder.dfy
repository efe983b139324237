/** Facts about the sorted key order and the normal form that do not involve parsing. */
module CanonicalJsonOrder {
  import opened Options
  import opened JsText
  import opened CanonicalJson

  // ---- Leq is a total order ----

  lemma {:induction false} LeqTotal(a: JsString, b: JsString)
    ensures Leq(a, b) || Leq(b, a)
  {
    if a != [] && b != [] && a[0] == b[0] {
      LeqTotal(a[1..], b[1..]);
    }
  }

  lemma {:induction false} LeqAntisymmetric(a: JsString, b: JsString)
    requires Leq(a, b) && Leq(b, a)
    ensures a == b
  {
    if a != [] {
      LeqAntisymmetric(a[1..], b[1..]);
      assert a == [a[0]] + a[1..] && b == [b[0]] + b[1..];
    }
  }

  lemma {:induction false} LeqTransitive(a: JsString, b: JsString, c: JsString)
    requires Leq(a, b) && Leq(b, c)
    ensures Leq(a, c)
  {
    if a != [] && a[0] == b[0] == c[0] {
      LeqTransitive(a[1..], b[1..], c[1..]);
    }
  }

  // ---- Sorting ----

  ghost predicate Sorted(ks: seq<JsString>)
  {
    forall i, j :: 0 <= i < j < |ks| ==> Leq(ks[i], ks[j])
  }

  lemma {:induction false} InsertSorted(k: JsString, ks: seq<JsString>)
    requires Sorted(ks)
    ensures Sorted(Insert(k, ks))
  {
    if ks != [] {
      if Leq(k, ks[0]) {
        forall j | 0 <= j < |ks| ensures Leq(k, ks[j]) {
          LeqTransitive(k, ks[0], if j == 0 then ks[0] else ks[j]) by {
            LeqTotal(ks[0], ks[0]);
          }
        }
      } else {
        LeqTotal(k, ks[0]);
        InsertSorted(k, ks[1..]);
        InsertKeeps(k, ks[1..]);
        var r := Insert(k, ks[1..]);
        forall j | 0 <= j < |r| ensures Leq(ks[0], r[j]) {
          assert r[j] in multiset(r);
          assert r[j] == k || r[j] in ks[1..];
          if r[j] != k {
            var i :| 0 <= i < |ks[1..]| && ks[1..][i] == r[j];
            assert Leq(ks[0], ks[i + 1]);
          }
        }
      }
    }
  }

  lemma {:induction false} SortStringsSorts(ks: seq<JsString>)
    ensures Sorted(SortStrings(ks))
  {
    if ks != [] {
      SortStringsSorts(ks[1..]);
      InsertSorted(ks[0], SortStrings(ks[1..]));
    }
  }

  /** A sorted arrangement is determined by its elements. */
  lemma {:induction false} SortedUnique(a: seq<JsString>, b: seq<JsString>)
    requires Sorted(a) && Sorted(b) && multiset(a) == multiset(b)
    ensures a == b
  {
    if a == [] {
      assert |multiset(b)| == 0;
    } else {
      assert a[0] in multiset(b);
      assert b != [] && b[0] in multiset(a);
      var i :| 0 <= i < |b| && b[i] == a[0];
      var j :| 0 <= j < |a| && a[j] == b[0];
      LeqTotal(a[0], a[0]);
      LeqAntisymmetric(a[0], b[0]);
      assert a == [a[0]] + a[1..] && b == [b[0]] + b[1..];
      assert multiset(a[1..]) == multiset(a) - multiset{a[0]};
      SortedUnique(a[1..], b[1..]);
    }
  }

  /** Sorting forgets the order it starts from. */
  lemma SortForgetsOrder(a: seq<JsString>, b: seq<JsString>)
    requires multiset(a) == multiset(b)
    ensures SortStrings(a) == SortStrings(b)
  {
    SortStringsSorts(a);
    SortStringsSorts(b);
    SortedUnique(SortStrings(a), SortStrings(b));
  }

  // ---- Distinct key lists ----

  lemma {:induction false} DistinctCount(ks: seq<JsString>, k: JsString)
    requires Distinct(ks)
    ensures multiset(ks)[k] == if k in ks then 1 else 0
  {
    if ks != [] {
      assert ks == [ks[0]] + ks[1..];
      DistinctCount(ks[1..], k);
    }
  }

  lemma DistinctSameMultiset(a: seq<JsString>, b: seq<JsString>)
    requires Distinct(a) && Distinct(b)
    requires forall k :: k in a <==> k in b
    ensures multiset(a) == multiset(b)
  {
    forall k ensures multiset(a)[k] == multiset(b)[k] {
      DistinctCount(a, k);
      DistinctCount(b, k);
    }
  }

  lemma Repeated(ks: seq<JsString>, i: nat, j: nat)
    requires i < j < |ks|
    ensures ks[i] == ks[j] ==> multiset(ks)[ks[i]] >= 2
  {
    assert ks == ks[..i] + [ks[i]] + ks[i + 1..j] + [ks[j]] + ks[j + 1..];
  }

  lemma SameMultisetDistinct(a: seq<JsString>, b: seq<JsString>)
    requires Distinct(a) && multiset(a) == multiset(b)
    ensures Distinct(b)
  {
    forall i, j | 0 <= i < j < |b| ensures b[i] != b[j] {
      DistinctCount(a, b[i]);
      Repeated(b, i, j);
    }
  }

  lemma {:induction false} GetAt<T>(es: seq<Entry<T>>, i: nat)
    requires i < |es| && Distinct(Keys(es))
    ensures Get(es, es[i].key) == Some(es[i].val)
  {
    if i > 0 {
      assert Keys(es)[0] != Keys(es)[i];
      assert Keys(es[1..]) == Keys(es)[1..];
      GetAt(es[1..], i - 1);
    }
  }

  lemma {:induction false} GetFrom<T>(es: seq<Entry<T>>, k: JsString) returns (i: nat)
    requires k in Keys(es)
    ensures i < |es| && es[i].key == k && Get(es, k) == Some(es[i].val)
  {
    if es[0].key == k {
      i := 0;
    } else {
      assert Keys(es) == [es[0].key] + Keys(es[1..]);
      var j := GetFrom(es[1..], k);
      i := j + 1;
    }
  }

  /** Two property lists with the same keys and values are the same once keyed in order. */
  lemma RekeyEqual<T>(es: seq<Entry<T>>, gs: seq<Entry<T>>)
    requires Distinct(Keys(es)) && Distinct(Keys(gs))
    requires forall k :: k in Keys(es) <==> k in Keys(gs)
    requires forall k :: k in Keys(es) ==> Get(es, k) == Get(gs, k)
    ensures Rekey(es) == Rekey(gs)
  {
    DistinctSameMultiset(Keys(es), Keys(gs));
    SortForgetsOrder(Keys(es), Keys(gs));
    var ks := SortStrings(Keys(es));
    forall i | 0 <= i < |ks| ensures Pick(es, ks)[i] == Pick(gs, ks)[i] {
      assert Get(es, ks[i]) == Get(gs, ks[i]);
    }
  }

  lemma RekeyKeeps<T>(es: seq<Entry<T>>)
    requires Distinct(Keys(es))
    ensures Distinct(Keys(Rekey(es)))
    ensures forall k :: k in Keys(Rekey(es)) <==> k in Keys(es)
    ensures forall k :: k in Keys(es) ==> Get(Rekey(es), k) == Get(es, k)
  {
    var ks := SortStrings(Keys(es));
    assert Keys(Rekey(es)) == ks;
    SameMultisetDistinct(Keys(es), ks);
    forall k | k in Keys(es) ensures Get(Rekey(es), k) == Get(es, k) {
      var i :| 0 <= i < |ks| && ks[i] == k;
      GetAt(Rekey(es), i);
    }
  }

  // ---- What the normal form keeps ----

  /** `k` is a property of the object, with a value that is not undefined. */
  ghost predicate Has(fields: seq<Entry<Json>>, k: JsString)
  {
    exists i :: 0 <= i < |fields| && fields[i].key == k && fields[i].val != Undefined
  }

  lemma {:induction false} NormFieldsKeys(fields: seq<Entry<Json>>)
    requires Distinct(Keys(fields))
    ensures Distinct(Keys(NormFields(fields)))
    ensures forall k :: k in Keys(NormFields(fields)) <==> Has(fields, k)
  {
    if fields != [] {
      var rest := fields[1..];
      assert Keys(rest) == Keys(fields)[1..];
      NormFieldsKeys(rest);
      forall k
        ensures Has(fields, k) <==> (fields[0].val != Undefined && fields[0].key == k) || Has(rest, k)
      {
        if Has(rest, k) {
          var i :| 0 <= i < |rest| && rest[i].key == k && rest[i].val != Undefined;
          assert fields[i + 1] == rest[i];
        }
        if Has(fields, k) && !(fields[0].val != Undefined && fields[0].key == k) {
          var i :| 0 <= i < |fields| && fields[i].key == k && fields[i].val != Undefined;
          assert fields[i] == rest[i - 1];
        }
      }
      if fields[0].val != Undefined {
        assert Keys(NormFields(fields)) == [fields[0].key] + Keys(NormFields(rest));
        forall i | 0 <= i < |rest| ensures rest[i].key != fields[0].key {
          assert Keys(fields)[0] != Keys(fields)[i + 1];
        }
        var ks := Keys(NormFields(rest));
        forall j | 0 <= j < |ks| ensures ks[j] != fields[0].key {
          assert ks[j] in ks && Has(rest, ks[j]);
        }
      }
    }
  }

  lemma {:induction false} NormFieldsAt(fields: seq<Entry<Json>>, i: nat)
    requires Distinct(Keys(fields)) && i < |fields| && fields[i].val != Undefined
    ensures Get(NormFields(fields), fields[i].key) == Some(Norm(fields[i].val))
  {
    if i > 0 {
      assert Keys(fields)[0] != Keys(fields)[i];
      assert Keys(fields[1..]) == Keys(fields)[1..];
      NormFieldsAt(fields[1..], i - 1);
    }
  }

  // ---- Equality up to key order ----

  /** The same value up to the order of property names, where an undefined property counts as
      absent and undefined elsewhere counts as null. */
  ghost predicate Same(v: Json, w: Json)
    decreases v
  {
    match v
    case Undefined => w.Undefined? || w.Null?
    case Null => w.Undefined? || w.Null?
    case Arr(xs) =>
      w.Arr? && |xs| == |w.items| && forall i :: 0 <= i < |xs| ==> Same(xs[i], w.items[i])
    case Obj(fs) =>
      && w.Obj?
      && (forall k :: Has(fs, k) <==> Has(w.fields, k))
      && (forall i, j | 0 <= i < |fs| && 0 <= j < |w.fields| && fs[i].key == w.fields[j].key
           :: fs[i].val != Undefined ==> Same(fs[i].val, w.fields[j].val))
    case _ => v == w
  }

  lemma HasAt(fields: seq<Entry<Json>>, j: nat)
    requires Distinct(Keys(fields)) && j < |fields| && Has(fields, fields[j].key)
    ensures fields[j].val != Undefined
  {
    var i :| 0 <= i < |fields| && fields[i].key == fields[j].key && fields[i].val != Undefined;
    assert Keys(fields)[i] == Keys(fields)[j];
  }

  lemma {:induction false} SameThenNorm(v: Json, w: Json)
    requires WellFormed(v) && WellFormed(w) && Same(v, w)
    ensures Norm(v) == Norm(w)
    decreases v
  {
    match v
    case Arr(xs) =>
      forall i | 0 <= i < |xs| ensures Norm(xs[i]) == Norm(w.items[i]) {
        SameThenNorm(xs[i], w.items[i]);
      }
    case Obj(fs) =>
      var gs := w.fields;
      NormFieldsKeys(fs);
      NormFieldsKeys(gs);
      forall k | k in Keys(NormFields(fs)) ensures Get(NormFields(fs), k) == Get(NormFields(gs), k) {
        var i :| 0 <= i < |fs| && fs[i].key == k && fs[i].val != Undefined;
        var j :| 0 <= j < |gs| && gs[j].key == k && gs[j].val != Undefined;
        SameThenNorm(fs[i].val, gs[j].val);
        NormFieldsAt(fs, i);
        NormFieldsAt(gs, j);
      }
      RekeyEqual(NormFields(fs), NormFields(gs));
    case _ =>
  }

  lemma {:induction false} NormThenSame(v: Json, w: Json)
    requires WellFormed(v) && WellFormed(w) && Norm(v) == Norm(w)
    ensures Same(v, w)
    decreases v
  {
    match v
    case Arr(xs) =>
      forall i | 0 <= i < |xs| ensures Same(xs[i], w.items[i]) {
        assert NormItems(xs)[i] == NormItems(w.items)[i];
        NormThenSame(xs[i], w.items[i]);
      }
    case Obj(fs) =>
      var gs := w.fields;
      NormFieldsKeys(fs);
      NormFieldsKeys(gs);
      RekeyKeeps(NormFields(fs));
      RekeyKeeps(NormFields(gs));
      forall k ensures Has(fs, k) <==> Has(gs, k) {
        assert k in Keys(NormFields(fs)) <==> k in Keys(NormFields(gs));
      }
      forall i, j | 0 <= i < |fs| && 0 <= j < |gs| && fs[i].key == gs[j].key && fs[i].val != Undefined
        ensures Same(fs[i].val, gs[j].val)
      {
        assert Has(fs, fs[i].key);
        HasAt(gs, j);
        NormFieldsAt(fs, i);
        NormFieldsAt(gs, j);
        NormThenSame(fs[i].val, gs[j].val);
      }
    case _ =>
  }
}
