/** What the digest of a receipt is taken of, field by field. */
module ReceiptPayload {
  import opened Options
  import opened JsText
  import opened CanonicalJson
  import opened CanonicalJsonOrder
  import opened CanonicalText
  import opened Receipts
  import ReceiptProofs

  predicate Listed(k: JsString)
  {
    k in [Lit("disclaimers"), Lit("not_run_obligations"), Lit("runtime_identities")]
  }

  predicate Lowered(k: JsString)
  {
    k in [Lit("candidate_patch_digest"), Lit("candidate_tree_digest"), Lit("frozen_contract_digest"), Lit("source_commit_id")]
  }

  predicate Stripped(k: JsString)
  {
    k in [Lit("task_id"), Lit("repo_locator"), Lit("schema_version"), Lit("signature_strategy")]
  }

  /** `ss` are the trimmed texts of the items. */
  ghost predicate Texts(items: seq<Json>, ss: seq<JsString>)
  {
    |ss| == |items| && forall i :: 0 <= i < |items| ==> StringOf(items[i]).Some? && ss[i] == Trim(StringOf(items[i]).value)
  }

  /** The same texts in ascending order, whatever order they came in. */
  ghost predicate Ordered(ss: seq<JsString>, ys: seq<Json>)
  {
    exists ts: seq<JsString> ::
      ys == Strs(ts) && multiset(ts) == multiset(ss) && forall i, j :: 0 <= i < j < |ts| ==> Precedes(ts[i], ts[j])
  }

  /** The three lists are trimmed and ordered, the four digest-like fields trimmed and lower-cased, four
      others trimmed; every other field, and every value of another type, is kept as it is. */
  ghost predicate Normal(h: Host, k: JsString, v: Json, w: Json)
  {
    if Listed(k) && v.Arr? then w.Arr? && exists ss :: Texts(v.items, ss) && Ordered(ss, w.items)
    else if Lowered(k) && v.Str? then w == Str(h.lower(Trim(v.s)))
    else if Stripped(k) && v.Str? then w == Str(Trim(v.s))
    else w == v
  }

  lemma KeyGroups(k: JsString)
    ensures (Listed(k) <==> IsListKey(k)) && (Lowered(k) <==> IsLowerKey(k)) && (Stripped(k) <==> IsTrimKey(k))
    ensures !(Listed(k) && Lowered(k)) && !(Listed(k) && Stripped(k)) && !(Lowered(k) && Stripped(k))
  {
    KeyLists();
    assert Lit("disclaimers")[0] != Lit("repo_locator")[0];
    assert Lit("runtime_identities")[0] != Lit("signature_strategy")[0];
  }

  lemma SortedTexts(items: seq<Json>)
    requires SortedList(Arr(items)).Some?
    ensures exists ss :: Texts(items, ss) && Ordered(ss, SortedList(Arr(items)).value.items)
  {
    var ss := TrimmedStrings(items).value;
    var ts := SortStrings(ss);
    SortStringsSorts(ss);
    forall i, j | 0 <= i < j < |ts| ensures Precedes(ts[i], ts[j]) {
      LeqIff(ts[i], ts[j]);
    }
    assert Texts(items, ss) && Ordered(ss, Strs(ts));
  }

  lemma ValueIsNormal(h: Host, k: JsString, v: Json)
    requires NormalizeValue(h, k, v).Some?
    ensures Normal(h, k, v, NormalizeValue(h, k, v).value)
  {
    KeyGroups(k);
    if Listed(k) && v.Arr? {
      SortedTexts(v.items);
    }
  }

  /** What a receipt has under a name, if anything, and what its payload has. */
  ghost predicate Carried(h: Host, k: JsString, v: Option<Json>, w: Option<Json>)
  {
    (w.Some? <==> v.Some? && k != Lit("receipt_digest")) && (w.Some? ==> Normal(h, k, v.value, w.value))
  }

  /** The payload has every field of the receipt but `receipt_digest`, normalised as its name asks, and no
      other field. */
  lemma {:induction false} PayloadFields(h: Host, fields: Fields, k: JsString)
    requires Distinct(Keys(fields)) && Payload(h, fields).Some?
    ensures Carried(h, k, Get(fields, k), Get(Payload(h, fields).value, k))
  {
    if fields != [] {
      assert Keys(fields)[1..] == Keys(fields[1..]);
      PayloadFields(h, fields[1..], k);
      KeyFirst(fields);
      if fields[0].key != DIGEST_KEY {
        HeadField(h, fields);
      }
    }
  }

  lemma HeadField(h: Host, fields: Fields)
    requires fields != [] && fields[0].key != DIGEST_KEY && Payload(h, fields).Some?
    ensures Payload(h, fields[1..]).Some?
    ensures var p := Payload(h, fields).value;
            && p != [] && p[0].key == fields[0].key && p[1..] == Payload(h, fields[1..]).value
            && Carried(h, p[0].key, Some(fields[0].val), Some(p[0].val))
  {
    ValueIsNormal(h, fields[0].key, fields[0].val);
  }

  /** Normalisation throws exactly when an item of one of the three lists has no text. */
  lemma PayloadThrowsIff(h: Host, fields: Fields)
    ensures Payload(h, fields).None?
            <==> exists i :: 0 <= i < |fields| && Listed(fields[i].key) && fields[i].val.Arr? && Textless(fields[i].val.items)
  {
    ReceiptProofs.PayloadSome(h, fields);
    forall i | 0 <= i < |fields|
      ensures fields[i].key != DIGEST_KEY && NormalizeValue(h, fields[i].key, fields[i].val).None?
              <==> Listed(fields[i].key) && fields[i].val.Arr? && Textless(fields[i].val.items)
    {
      KeyGroups(fields[i].key);
      assert |DIGEST_KEY| == 14;
    }
  }

  predicate Textless(items: seq<Json>)
  {
    exists i :: 0 <= i < |items| && StringOf(items[i]).None?
  }

  /** `String(item)`: only an object with its own `toString` has none, nested lists apart. */
  lemma ItemTexts(v: Json)
    requires !v.Arr?
    ensures StringOf(v).None? <==> v.Obj? && Lit("toString") in Keys(v.fields)
    ensures StringOf(v).Some? ==>
              StringOf(v).value == if v.Str? then v.s else if v.Obj? then Lit("[object Object]")
                                   else if v.Undefined? then Lit("undefined") else Canonical(v)
  {
  }
}
