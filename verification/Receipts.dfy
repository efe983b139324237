/** Receipt digests and the receipt checks of the ledger, on receipts that are JSON values. */
module Receipts {
  import opened Options
  import opened JsText
  import opened CanonicalJson
  import opened JsonParser
  import opened SeqSearch

  type Fields = seq<Entry<Json>>

  const DIGEST_KEY := Lit("receipt_digest")
  const VERDICT_KEY := Lit("overall_verdict")
  const PROVENANCE_KEY := Lit("provenance")
  const SOURCE_KEY := Lit("source_commit_id")

  predicate IsListKey(k: JsString)
  {
    k == Lit("disclaimers") || k == Lit("not_run_obligations") || k == Lit("runtime_identities")
  }

  predicate IsLowerKey(k: JsString)
  {
    || k == Lit("candidate_patch_digest") || k == Lit("candidate_tree_digest")
    || k == Lit("frozen_contract_digest") || k == Lit("source_commit_id")
  }

  predicate IsTrimKey(k: JsString)
  {
    || k == Lit("task_id") || k == Lit("repo_locator")
    || k == Lit("schema_version") || k == Lit("signature_strategy")
  }

  // ---- String(item) ----

  /** `String(v)`. An object with an own `toString` property has no primitive value: None, a throw. */
  function StringOf(v: Json): Option<JsString>
    decreases v, 1
  {
    match v
    case Undefined => Some(Lit("undefined"))
    case Null => Some(NULL)
    case Bool(b) => Some(if b then TRUE else FALSE)
    case Num(n) => Some(Decimal(n))
    case Str(s) => Some(s)
    case Arr(items) => JoinedString(items)
    case Obj(fields) => if Lit("toString") in Keys(fields) then None else Some(Lit("[object Object]"))
  }

  /** `Array.prototype.join(",")`: null and undefined items are empty. */
  function JoinedString(items: seq<Json>): Option<JsString>
    decreases items, 0
  {
    if items == [] then Some([])
    else
      var first := if items[0].Null? || items[0].Undefined? then Some([]) else StringOf(items[0]);
      var rest := JoinedString(items[1..]);
      if first.None? || rest.None? then None
      else if |items| == 1 then first
      else Some(first.value + [COMMA] + rest.value)
  }

  function TrimmedStrings(items: seq<Json>): (r: Option<seq<JsString>>)
    ensures r.Some? <==> forall i :: 0 <= i < |items| ==> StringOf(items[i]).Some?
    ensures r.Some? ==> |r.value| == |items|
    ensures r.Some? ==> forall i :: 0 <= i < |items| ==> r.value[i] == Trim(StringOf(items[i]).value)
  {
    if exists i :: 0 <= i < |items| && StringOf(items[i]).None? then None
    else Some(seq(|items|, i requires 0 <= i < |items| => Trim(StringOf(items[i]).value)))
  }

  function Strs(ss: seq<JsString>): (r: seq<Json>)
    ensures |r| == |ss|
    ensures forall i :: 0 <= i < |ss| ==> r[i] == Str(ss[i])
  {
    seq(|ss|, i requires 0 <= i < |ss| => Str(ss[i]))
  }

  // ---- normalizeReceiptDigestPayload ----

  function SortedList(v: Json): Option<Json>
  {
    if v.Arr? then
      match TrimmedStrings(v.items)
      case None => None
      case Some(ss) => Some(Arr(Strs(SortStrings(ss))))
    else Some(v)
  }

  function LowerTrimmed(h: Host, v: Json): Json
  {
    if v.Str? then Str(h.lower(Trim(v.s))) else v
  }

  function Trimmed(v: Json): Json
  {
    if v.Str? then Str(Trim(v.s)) else v
  }

  function NormalizeValue(h: Host, k: JsString, v: Json): Option<Json>
  {
    match if IsListKey(k) then SortedList(v) else Some(v)
    case None => None
    case Some(listed) => Some(Rewritten(h, k, listed))
  }

  /** Lower-case and trim the fields that call for it. */
  function Rewritten(h: Host, k: JsString, v: Json): Json
  {
    var lowered := if IsLowerKey(k) then LowerTrimmed(h, v) else v;
    if IsTrimKey(k) then Trimmed(lowered) else lowered
  }

  function Payload(h: Host, fields: Fields): Option<Fields>
  {
    if fields == [] then Some([])
    else
      var rest := Payload(h, fields[1..]);
      if fields[0].key == DIGEST_KEY then rest
      else
        var v := NormalizeValue(h, fields[0].key, fields[0].val);
        if v.None? || rest.None? then None else Some([Entry(fields[0].key, v.value)] + rest.value)
  }

  /** `computeReceiptDigest`; None when normalisation throws. */
  function Digest(h: Host, fields: Fields): Option<JsString>
  {
    match Payload(h, fields)
    case None => None
    case Some(payload) => Some(h.sha(Canonical(Obj(payload))))
  }

  /** `verifyReceiptIntegrity`. */
  predicate Verifies(h: Host, receipt: Json)
  {
    && receipt.Obj?
    && var stated := Get(receipt.fields, DIGEST_KEY);
       && stated.Some? && stated.value.Str? && |stated.value.s| == 64
       && var recomputed := Digest(h, receipt.fields);
          recomputed.Some? && h.lower(recomputed.value) == h.lower(stated.value.s)
  }

  // ---- storeReceipt and getReceipt ----

  predicate NonBlankField(receipt: Json, k: JsString)
  {
    receipt.Obj? && var v := Get(receipt.fields, k); v.Some? && v.value.Str? && !Blank(v.value.s)
  }

  /** Every check made before a receipt is stored. `secret` is the verdict of the secret patterns. */
  predicate Storable(h: Host, receipt: Json, allowAuthoritative: bool, secret: bool)
  {
    && NonBlankField(receipt, VERDICT_KEY)
    && NonBlankField(receipt, PROVENANCE_KEY)
    && NonBlankField(receipt, SOURCE_KEY)
    && (allowAuthoritative ||
        var provenance := h.upper(Trim(Get(receipt.fields, PROVENANCE_KEY).value.s));
        provenance != Lit("LIVE_NEBIUS") && provenance != Lit("RECORDED_LIVE"))
    && Verifies(h, receipt)
    && !secret
  }

  datatype StoredReceipt = StoredReceipt(digest: JsString, json: JsString)

  function Stored(receipt: Json): StoredReceipt
    requires receipt.Obj? && Get(receipt.fields, DIGEST_KEY).Some? && Get(receipt.fields, DIGEST_KEY).value.Str?
  {
    StoredReceipt(Get(receipt.fields, DIGEST_KEY).value.s, Canonical(receipt))
  }

  datatype Reading = Reading(receipt: Json, verified: bool, digest: JsString)

  /** `getReceipt` on a found row; None when the stored text does not parse. */
  function Read(h: Host, row: StoredReceipt): Option<Reading>
  {
    match Parse(row.json)
    case None => None
    case Some(receipt) => Some(Reading(receipt, Verifies(h, receipt), row.digest))
  }

  /** The row parses to a receipt that verifies and states the digest of the row. */
  predicate Reads(h: Host, row: StoredReceipt)
  {
    var r := Read(h, row);
    r.Some? && r.value.verified && r.value.receipt.Obj?
    && Get(r.value.receipt.fields, DIGEST_KEY) == Some(Str(row.digest))
  }

  /** Every stored row does. */
  predicate ReceiptsRead(h: Host, receipts: map<JsString, StoredReceipt>)
  {
    forall id :: id in receipts ==> Reads(h, receipts[id])
  }

  // ---- The loops of the source ----

  /** The copy without the digest. */
  function Kept(fields: Fields): Fields
  {
    if fields == [] then []
    else if fields[0].key == DIGEST_KEY then Kept(fields[1..])
    else [fields[0]] + Kept(fields[1..])
  }

  lemma {:induction false} KeptGrows(fields: Fields, e: Entry<Json>)
    ensures Kept(fields + [e]) == Kept(fields) + if e.key == DIGEST_KEY then [] else [e]
  {
    if fields == [] {
      assert (fields + [e])[1..] == [];
    } else {
      assert (fields + [e])[1..] == fields[1..] + [e];
      KeptGrows(fields[1..], e);
    }
  }

  lemma {:induction false} KeptAddsNoKey(fields: Fields, k: JsString)
    requires k !in Keys(fields)
    ensures k !in Keys(Kept(fields))
  {
    if fields != [] {
      assert Keys(fields) == [fields[0].key] + Keys(fields[1..]);
      KeptAddsNoKey(fields[1..], k);
      assert fields[0].key != DIGEST_KEY ==> Keys(Kept(fields)) == [fields[0].key] + Keys(Kept(fields[1..]));
    }
  }

  lemma KeyFirst(fields: Fields)
    requires fields != [] && Distinct(Keys(fields))
    ensures fields[0].key !in Keys(fields[1..])
  {
    forall i | 0 <= i < |fields[1..]| ensures Keys(fields[1..])[i] != fields[0].key {
      assert Keys(fields)[0] != Keys(fields)[i + 1];
    }
  }

  lemma DistinctMore(k: JsString, ks: seq<JsString>)
    requires Distinct(ks) && k !in ks
    ensures Distinct([k] + ks)
  {
    var more := [k] + ks;
    forall i, j | 0 <= i < j < |more| ensures more[i] != more[j] {
      assert more[j] == ks[j - 1];
      assert i > 0 ==> more[i] == ks[i - 1];
    }
  }

  lemma {:induction false} KeptDistinct(fields: Fields)
    requires Distinct(Keys(fields))
    ensures Distinct(Keys(Kept(fields)))
  {
    if fields != [] {
      var rest := fields[1..];
      assert Keys(rest) == Keys(fields)[1..];
      KeptDistinct(rest);
      KeyFirst(fields);
      KeptAddsNoKey(rest, fields[0].key);
      if fields[0].key != DIGEST_KEY {
        DistinctMore(fields[0].key, Keys(Kept(rest)));
        assert Keys(Kept(fields)) == [fields[0].key] + Keys(Kept(rest));
      }
    }
  }

  ghost predicate AllNormalised(h: Host, copy: Fields, payload: Fields)
  {
    |payload| == |copy|
    && forall i :: 0 <= i < |payload| ==>
         && payload[i].key == copy[i].key
         && NormalizeValue(h, payload[i].key, copy[i].val) == Some(payload[i].val)
  }

  lemma AllNormalisedTail(h: Host, copy: Fields, payload: Fields)
    requires |copy| > 0 && AllNormalised(h, copy, payload)
    ensures AllNormalised(h, copy[1..], payload[1..])
  {
  }

  /** The payload is the copy with each value normalised. */
  lemma {:induction false} PayloadOfKept(h: Host, fields: Fields, payload: Fields)
    requires AllNormalised(h, Kept(fields), payload)
    ensures Payload(h, fields) == Some(payload)
  {
    if fields != [] {
      if fields[0].key == DIGEST_KEY {
        PayloadOfKept(h, fields[1..], payload);
      } else {
        AllNormalisedTail(h, Kept(fields), payload);
        assert Kept(fields)[1..] == Kept(fields[1..]);
        PayloadOfKept(h, fields[1..], payload[1..]);
        assert payload == [Entry(payload[0].key, payload[0].val)] + payload[1..];
      }
    }
  }

  /** One value of the copy that throws makes normalisation throw. */
  lemma {:induction false} PayloadThrowsAt(h: Host, fields: Fields, at: nat)
    requires at < |Kept(fields)|
    requires NormalizeValue(h, Kept(fields)[at].key, Kept(fields)[at].val).None?
    ensures Payload(h, fields).None?
  {
    if fields[0].key == DIGEST_KEY {
      PayloadThrowsAt(h, fields[1..], at);
    } else if at > 0 {
      PayloadThrowsAt(h, fields[1..], at - 1);
    }
  }

  /** `after` is `before` with `f` applied to the values under the keys. */
  ghost predicate Pass(before: Fields, after: Fields, keys: seq<JsString>, f: Json -> Json)
  {
    |after| == |before|
    && forall i :: 0 <= i < |before| ==>
         after[i] == Entry(before[i].key, if before[i].key in keys then f(before[i].val) else before[i].val)
  }

  /** One more key: assigned where the copy has it. */
  lemma PassMore(before: Fields, after: Fields, keys: seq<JsString>, j: nat, f: Json -> Json, at: Option<nat>)
    requires Distinct(Keys(before)) && Distinct(keys) && j < |keys| && Pass(before, after, keys[..j], f)
    requires at.Some? ==> at.value < |after| && after[at.value].key == keys[j]
    requires at.None? ==> forall i :: 0 <= i < |after| ==> after[i].key != keys[j]
    ensures at.Some? ==> after[at.value] == before[at.value]
    ensures Pass(before, if at.Some? then after[at.value := Entry(keys[j], f(before[at.value].val))] else after, keys[..j + 1], f)
  {
    assert keys[..j + 1] == keys[..j] + [keys[j]];
    assert forall i :: 0 <= i < |before| ==> Keys(before)[i] == before[i].key;
  }

  /** `copy[key] = f(copy[key])` for each key the copy has. */
  method RewriteFields(copy: Fields, keys: seq<JsString>, f: Json -> Json) returns (out: Fields)
    requires Distinct(Keys(copy)) && Distinct(keys)
    ensures Pass(copy, out, keys, f)
  {
    out := copy;
    for j := 0 to |keys|
      invariant Pass(copy, out, keys[..j], f)
    {
      var found := First(out, (e: Entry<Json>) => e.key == keys[j]);
      PassMore(copy, out, keys, j, f, found);
      if found.Some? {
        out := out[found.value := Entry(keys[j], f(out[found.value].val))];
      }
    }
    assert keys[..|keys|] == keys;
  }

  // The keys of the three rewriting loops, in their order.
  const LIST_KEYS := [Lit("disclaimers"), Lit("not_run_obligations"), Lit("runtime_identities")]
  const LOWER_KEYS := [
    Lit("candidate_patch_digest"), Lit("candidate_tree_digest"), Lit("frozen_contract_digest"), Lit("source_commit_id")]
  const TRIM_KEYS := [Lit("task_id"), Lit("repo_locator"), Lit("schema_version"), Lit("signature_strategy")]

  lemma KeyLists()
    ensures Distinct(LIST_KEYS) && Distinct(LOWER_KEYS) && Distinct(TRIM_KEYS)
    ensures forall k :: k in LIST_KEYS <==> IsListKey(k)
    ensures forall k :: k in LOWER_KEYS <==> IsLowerKey(k)
    ensures forall k :: k in TRIM_KEYS <==> IsTrimKey(k)
  {
    assert LOWER_KEYS[0][0] != LOWER_KEYS[2][0];
  }

  function ListOr(v: Json): Json
  {
    SortedList(v).GetOr(v)
  }

  ghost predicate ListsSorted(copy: Fields, keys: seq<JsString>)
  {
    forall i :: 0 <= i < |copy| && copy[i].key in keys ==> SortedList(copy[i].val).Some?
  }

  lemma OneMoreKey(copy: Fields, keys: seq<JsString>, j: nat, at: Option<nat>)
    requires Distinct(Keys(copy)) && j < |keys| && ListsSorted(copy, keys[..j])
    requires at.Some? ==> at.value < |copy| && copy[at.value].key == keys[j]
    requires at.None? ==> forall i :: 0 <= i < |copy| ==> copy[i].key != keys[j]
    ensures ListsSorted(copy, keys[..j + 1]) <==> (at.Some? ==> SortedList(copy[at.value].val).Some?)
  {
    assert keys[..j + 1] == keys[..j] + [keys[j]];
    assert forall i :: 0 <= i < |copy| ==> Keys(copy)[i] == copy[i].key;
  }

  /** The first rewriting loop; false when an item of a list throws. */
  method SortLists(copy: Fields) returns (ok: bool, out: Fields)
    requires Distinct(Keys(copy))
    ensures ok <==> forall i :: 0 <= i < |copy| && IsListKey(copy[i].key) ==> SortedList(copy[i].val).Some?
    ensures ok ==> Pass(copy, out, LIST_KEYS, ListOr)
  {
    ok, out := true, copy;
    KeyLists();
    for j := 0 to |LIST_KEYS|
      invariant ok
      invariant Pass(copy, out, LIST_KEYS[..j], ListOr)
      invariant ListsSorted(copy, LIST_KEYS[..j])
    {
      var found := First(out, (e: Entry<Json>) => e.key == LIST_KEYS[j]);
      PassMore(copy, out, LIST_KEYS, j, ListOr, found);
      OneMoreKey(copy, LIST_KEYS, j, found);
      if found.Some? && out[found.value].val.Arr? {
        var listed := SortedList(out[found.value].val);
        if listed.None? {
          return false, out;
        }
        out := out[found.value := Entry(LIST_KEYS[j], listed.value)];
      }
    }
    assert LIST_KEYS[..|LIST_KEYS|] == LIST_KEYS;
  }

  /** `normalizeReceiptDigestPayload` as it runs: copy every property but the digest, then rewrite
      the lists, the digest-like fields and the plain fields, one loop each. The property names of
      an object are distinct. */
  method NormalizePayload(h: Host, fields: Fields) returns (payload: Option<Fields>)
    requires Distinct(Keys(fields))
    ensures payload == Payload(h, fields)
  {
    var copy: Fields := [];
    for i := 0 to |fields|
      invariant copy == Kept(fields[..i])
    {
      assert fields[..i + 1] == fields[..i] + [fields[i]];
      KeptGrows(fields[..i], fields[i]);
      if fields[i].key != DIGEST_KEY {
        copy := copy + [fields[i]];
      }
    }
    assert fields[..|fields|] == fields;
    KeptDistinct(fields);
    KeyLists();
    var ok, listed := SortLists(copy);
    if !ok {
      var at :| 0 <= at < |copy| && IsListKey(copy[at].key) && SortedList(copy[at].val).None?;
      PayloadThrowsAt(h, fields, at);
      return None;
    }
    assert Keys(listed) == Keys(copy);
    var lowered := RewriteFields(listed, LOWER_KEYS, v => LowerTrimmed(h, v));
    assert Keys(lowered) == Keys(copy);
    var trimmed := RewriteFields(lowered, TRIM_KEYS, Trimmed);
    PayloadOfKept(h, fields, trimmed);
    payload := Some(trimmed);
  }
}

/** Stored receipts verify again when they are read, and cosmetic edits keep the digest. */
module ReceiptProofs {
  import opened Options
  import opened JsText
  import opened CanonicalJson
  import opened CanonicalJsonOrder
  import opened CanonicalJsonRoundTrip
  import opened JsonParser
  import opened Receipts
  import opened SeqImages

  // ---- String(item) does not see key order ----

  lemma {:induction false} StringOfSame(v: Json, w: Json)
    requires IsJson(v) && IsJson(w) && Same(v, w)
    ensures StringOf(v) == StringOf(w)
    decreases v, 1
  {
    match v
    case Arr(items) => JoinedStringSame(items, w.items);
    case Obj(fields) =>
      JsonHas(fields, Lit("toString"));
      JsonHas(w.fields, Lit("toString"));
    case _ =>
  }

  lemma {:induction false} JoinedStringSame(xs: seq<Json>, ys: seq<Json>)
    requires |xs| == |ys|
    requires forall i :: 0 <= i < |xs| ==> IsJson(xs[i]) && IsJson(ys[i]) && Same(xs[i], ys[i])
    ensures JoinedString(xs) == JoinedString(ys)
    decreases xs, 0
  {
    if xs != [] {
      StringOfSame(xs[0], ys[0]);
      JoinedStringSame(xs[1..], ys[1..]);
    }
  }

  /** In a JSON object every listed key is present. */
  lemma JsonHas(fields: Fields, k: JsString)
    requires IsJson(Obj(fields))
    ensures k in Keys(fields) <==> Has(fields, k)
  {
    if k in Keys(fields) {
      var i :| 0 <= i < |fields| && Keys(fields)[i] == k;
      assert IsJson(fields[i].val);
    }
    if Has(fields, k) {
      var i :| 0 <= i < |fields| && fields[i].key == k;
      assert Keys(fields)[i] == k;
    }
  }

  lemma {:induction false} IsJsonWellFormed(v: Json)
    requires IsJson(v)
    ensures WellFormed(v)
    decreases v
  {
    match v
    case Arr(items) =>
      forall i | 0 <= i < |items| ensures WellFormed(items[i]) { IsJsonWellFormed(items[i]); }
    case Obj(fields) =>
      forall i | 0 <= i < |fields| ensures WellFormed(fields[i].val) { IsJsonWellFormed(fields[i].val); }
    case _ =>
  }

  lemma SameRefl(v: Json)
    requires IsJson(v)
    ensures Same(v, v)
  {
    IsJsonWellFormed(v);
    NormThenSame(v, v);
  }

  // ---- Normalisation does not see key order ----

  lemma SortedListSame(v: Json, w: Json)
    requires IsJson(v) && IsJson(w) && Same(v, w)
    ensures SortedList(v).Some? <==> SortedList(w).Some?
    ensures SortedList(v).Some? ==>
              && IsJson(SortedList(v).value) && IsJson(SortedList(w).value)
              && Same(SortedList(v).value, SortedList(w).value)
  {
    if v.Arr? {
      forall i | 0 <= i < |v.items| ensures StringOf(v.items[i]) == StringOf(w.items[i]) {
        StringOfSame(v.items[i], w.items[i]);
      }
      var a, b := TrimmedStrings(v.items), TrimmedStrings(w.items);
      if a.Some? {
        assert a.value == b.value;
        var r := Arr(Strs(SortStrings(a.value)));
        SameRefl(r);
      }
    }
  }

  lemma NormalizeValueSame(h: Host, k: JsString, v: Json, w: Json)
    requires IsJson(v) && IsJson(w) && Same(v, w)
    ensures NormalizeValue(h, k, v).Some? <==> NormalizeValue(h, k, w).Some?
    ensures NormalizeValue(h, k, v).Some? ==>
              && IsJson(NormalizeValue(h, k, v).value) && IsJson(NormalizeValue(h, k, w).value)
              && Same(NormalizeValue(h, k, v).value, NormalizeValue(h, k, w).value)
  {
    SortedListSame(v, w);
    var a, b := if IsListKey(k) then SortedList(v) else Some(v), if IsListKey(k) then SortedList(w) else Some(w);
    if a.Some? {
      StringStepsSame(h, k, a.value, b.value);
    }
  }

  /** Trimming and lower-casing touch only strings. */
  lemma StringStepsSame(h: Host, k: JsString, v: Json, w: Json)
    requires IsJson(v) && IsJson(w) && Same(v, w)
    ensures IsJson(Rewritten(h, k, v)) && IsJson(Rewritten(h, k, w)) && Same(Rewritten(h, k, v), Rewritten(h, k, w))
  {
  }

  /** Normalisation throws exactly when some field other than the digest does. */
  lemma {:induction false} PayloadSome(h: Host, fields: Fields)
    ensures Payload(h, fields).Some? <==>
              forall i :: 0 <= i < |fields| && fields[i].key != DIGEST_KEY
                ==> NormalizeValue(h, fields[i].key, fields[i].val).Some?
  {
    if fields != [] {
      var rest := fields[1..];
      PayloadSome(h, rest);
      assert forall i :: 0 <= i < |rest| ==> rest[i] == fields[i + 1];
      assert forall i :: 1 <= i < |fields| ==> fields[i] == rest[i - 1];
    }
  }

  lemma LaterField(h: Host, fields: Fields, e: Entry<Json>)
    requires fields != [] && Distinct(Keys(fields)) && Normalised(h, fields[1..], e)
    ensures Normalised(h, fields, e) && e.key != fields[0].key
  {
    var i := SourceField(h, fields[1..], e);
    assert Keys(fields)[0] != Keys(fields)[i + 1];
    assert fields[i + 1] == fields[1..][i];
  }

  /** What the payload of a receipt holds: each field but the digest, normalised. */
  lemma {:induction false} PayloadHolds(h: Host, fields: Fields)
    requires Distinct(Keys(fields)) && Payload(h, fields).Some?
    ensures var p := Payload(h, fields).value;
            && Distinct(Keys(p))
            && (forall j :: 0 <= j < |p| ==> Normalised(h, fields, p[j]))
  {
    if fields != [] {
      var rest := fields[1..];
      assert Keys(rest) == Keys(fields)[1..];
      PayloadHolds(h, rest);
      var p, q := Payload(h, fields).value, Payload(h, rest).value;
      forall j | 0 <= j < |q| ensures Normalised(h, fields, q[j]) && q[j].key != fields[0].key {
        LaterField(h, fields, q[j]);
      }
      if fields[0].key != DIGEST_KEY {
        assert p[0].key == fields[0].key && Normalised(h, fields, p[0]);
        assert p[1..] == q && Keys(p) == [fields[0].key] + Keys(q);
      }
    }
  }

  lemma PayloadHead(h: Host, fields: Fields)
    requires fields != [] && Payload(h, fields).Some?
    ensures Payload(h, fields[1..]).Some?
    ensures var ks := Keys(Payload(h, fields[1..]).value);
            Keys(Payload(h, fields).value) == if fields[0].key == DIGEST_KEY then ks else [fields[0].key] + ks
  {
  }

  lemma {:induction false} PayloadCovers(h: Host, fields: Fields, i: nat)
    requires Payload(h, fields).Some? && i < |fields| && fields[i].key != DIGEST_KEY
    ensures fields[i].key in Keys(Payload(h, fields).value)
  {
    if i > 0 {
      PayloadCovers(h, fields[1..], i - 1);
    }
    PayloadHead(h, fields);
    if i == 0 {
      assert Keys(Payload(h, fields).value)[0] == fields[0].key;
    }
  }

  /** `e` is a normalised field of the receipt. */
  ghost predicate Normalised(h: Host, fields: Fields, e: Entry<Json>)
  {
    exists i :: 0 <= i < |fields| && fields[i].key == e.key && e.key != DIGEST_KEY
                && NormalizeValue(h, e.key, fields[i].val) == Some(e.val)
  }

  /** Two receipts that agree, field by field, on the normalised value have the same digest. */
  lemma DigestByFields(h: Host, fields: Fields, other: Fields)
    requires IsJson(Obj(fields)) && IsJson(Obj(other))
    requires forall k :: k in Keys(fields) <==> k in Keys(other)
    requires forall i, j | 0 <= i < |fields| && 0 <= j < |other| && fields[i].key == other[j].key != DIGEST_KEY ::
               Agree(h, fields[i].key, fields[i].val, other[j].val)
    ensures Digest(h, fields) == Digest(h, other)
  {
    PayloadThrows(h, fields, other);
    PayloadThrows(h, other, fields);
    if Payload(h, fields).Some? {
      var p, q := Payload(h, fields).value, Payload(h, other).value;
      PayloadJson(h, fields, other);
      PayloadJson(h, other, fields);
      PayloadsSame(h, fields, other);
      CanonicalDecides(Obj(p), Obj(q));
    }
  }

  /** The two values normalise alike, up to key order. */
  ghost predicate Agree(h: Host, k: JsString, v: Json, w: Json)
  {
    var a, b := NormalizeValue(h, k, v), NormalizeValue(h, k, w);
    && (a.Some? <==> b.Some?)
    && (a.Some? ==> IsJson(a.value) && IsJson(b.value) && Same(a.value, b.value) && Same(b.value, a.value))
  }

  lemma Partner(fields: Fields, other: Fields, k: JsString) returns (j: nat)
    requires k in Keys(other)
    ensures j < |other| && other[j].key == k
  {
    j :| 0 <= j < |other| && Keys(other)[j] == k;
  }

  lemma PayloadThrows(h: Host, fields: Fields, other: Fields)
    requires IsJson(Obj(fields)) && IsJson(Obj(other))
    requires forall k :: k in Keys(fields) ==> k in Keys(other)
    requires forall i, j | 0 <= i < |fields| && 0 <= j < |other| && fields[i].key == other[j].key != DIGEST_KEY ::
               NormalizeValue(h, fields[i].key, fields[i].val).Some? <==> NormalizeValue(h, fields[i].key, other[j].val).Some?
    ensures Payload(h, other).Some? ==> Payload(h, fields).Some?
  {
    PayloadSome(h, fields);
    PayloadSome(h, other);
    if Payload(h, other).Some? {
      forall i | 0 <= i < |fields| && fields[i].key != DIGEST_KEY
        ensures NormalizeValue(h, fields[i].key, fields[i].val).Some?
      {
        assert Keys(fields)[i] in Keys(fields);
        var j := Partner(fields, other, fields[i].key);
      }
    }
  }

  lemma PayloadJson(h: Host, fields: Fields, other: Fields)
    requires IsJson(Obj(fields)) && IsJson(Obj(other)) && Payload(h, fields).Some?
    requires forall k :: k in Keys(fields) ==> k in Keys(other)
    requires forall i, j | 0 <= i < |fields| && 0 <= j < |other| && fields[i].key == other[j].key != DIGEST_KEY ::
               var a := NormalizeValue(h, fields[i].key, fields[i].val); a.Some? ==> IsJson(a.value)
    ensures IsJson(Obj(Payload(h, fields).value)) && WellFormed(Obj(Payload(h, fields).value))
  {
    PayloadHolds(h, fields);
    var p := Payload(h, fields).value;
    forall m | 0 <= m < |p| ensures IsJson(p[m].val) {
      var i := SourceField(h, fields, p[m]);
      assert Keys(fields)[i] in Keys(fields);
      var j := Partner(fields, other, fields[i].key);
    }
    IsJsonWellFormed(Obj(p));
  }

  lemma PayloadsSame(h: Host, fields: Fields, other: Fields)
    requires IsJson(Obj(fields)) && IsJson(Obj(other))
    requires Payload(h, fields).Some? && Payload(h, other).Some?
    requires IsJson(Obj(Payload(h, fields).value)) && IsJson(Obj(Payload(h, other).value))
    requires forall k :: k in Keys(fields) <==> k in Keys(other)
    requires forall i, j | 0 <= i < |fields| && 0 <= j < |other| && fields[i].key == other[j].key != DIGEST_KEY ::
               Agree(h, fields[i].key, fields[i].val, other[j].val)
    ensures Same(Obj(Payload(h, fields).value), Obj(Payload(h, other).value))
  {
    PayloadKeysSame(h, fields, other);
    var p, q := Payload(h, fields).value, Payload(h, other).value;
    forall m, n | 0 <= m < |p| && 0 <= n < |q| && p[m].key == q[n].key ensures Same(p[m].val, q[n].val) {
      PayloadFieldSame(h, fields, other, m, n);
    }
  }

  lemma PayloadKeysSame(h: Host, fields: Fields, other: Fields)
    requires IsJson(Obj(fields)) && IsJson(Obj(other))
    requires Payload(h, fields).Some? && Payload(h, other).Some?
    requires IsJson(Obj(Payload(h, fields).value)) && IsJson(Obj(Payload(h, other).value))
    requires forall k :: k in Keys(fields) <==> k in Keys(other)
    ensures forall k :: Has(Payload(h, fields).value, k) <==> Has(Payload(h, other).value, k)
  {
    var p, q := Payload(h, fields).value, Payload(h, other).value;
    forall k ensures Has(p, k) <==> Has(q, k) {
      PayloadKeys(h, fields, k);
      PayloadKeys(h, other, k);
      JsonHas(p, k);
      JsonHas(q, k);
    }
  }

  lemma PayloadFieldSame(h: Host, fields: Fields, other: Fields, m: nat, n: nat)
    requires Distinct(Keys(fields)) && Distinct(Keys(other))
    requires Payload(h, fields).Some? && Payload(h, other).Some?
    requires m < |Payload(h, fields).value| && n < |Payload(h, other).value|
    requires Payload(h, fields).value[m].key == Payload(h, other).value[n].key
    requires forall i, j | 0 <= i < |fields| && 0 <= j < |other| && fields[i].key == other[j].key != DIGEST_KEY ::
               Agree(h, fields[i].key, fields[i].val, other[j].val)
    ensures Same(Payload(h, fields).value[m].val, Payload(h, other).value[n].val)
  {
    PayloadHolds(h, fields);
    PayloadHolds(h, other);
    var i := SourceField(h, fields, Payload(h, fields).value[m]);
    var j := SourceField(h, other, Payload(h, other).value[n]);
    assert Agree(h, fields[i].key, fields[i].val, other[j].val);
  }

  lemma SourceField(h: Host, fields: Fields, e: Entry<Json>) returns (i: nat)
    requires Normalised(h, fields, e)
    ensures i < |fields| && fields[i].key == e.key != DIGEST_KEY
    ensures NormalizeValue(h, e.key, fields[i].val) == Some(e.val)
  {
    i :| 0 <= i < |fields| && fields[i].key == e.key && e.key != DIGEST_KEY
         && NormalizeValue(h, e.key, fields[i].val) == Some(e.val);
  }

  lemma PayloadKeys(h: Host, fields: Fields, k: JsString)
    requires IsJson(Obj(fields)) && Payload(h, fields).Some?
    ensures k in Keys(Payload(h, fields).value) <==> k in Keys(fields) && k != DIGEST_KEY
  {
    PayloadHolds(h, fields);
    var p := Payload(h, fields).value;
    if k in Keys(p) {
      var j := Partner(fields, p, k);
      var i := SourceField(h, fields, p[j]);
      assert Keys(fields)[i] == k;
    }
    if k in Keys(fields) && k != DIGEST_KEY {
      var i := Partner(p, fields, k);
      PayloadCovers(h, fields, i);
    }
  }

  // ---- Main results ----

  /** A receipt that passed the integrity check still passes after its canonical text is stored and
      parsed back, with the same digest. */
  lemma StoredReceiptVerifies(h: Host, receipt: Json)
    requires IsJson(receipt)
    ensures Verifies(h, receipt) ==>
              var row := Stored(receipt);
              && Read(h, row).Some?
              && Read(h, row).value.verified
              && Read(h, row).value.receipt == Norm(receipt)
              && Digest(h, Norm(receipt).fields) == Digest(h, receipt.fields)
              && Get(Norm(receipt).fields, DIGEST_KEY) == Some(Str(row.digest))
  {
    if Verifies(h, receipt) {
      VerifiedReceiptReads(h, receipt);
    }
  }

  lemma VerifiedReceiptReads(h: Host, receipt: Json)
    requires IsJson(receipt) && Verifies(h, receipt)
    ensures var row := Stored(receipt);
            && Read(h, row).Some?
            && Read(h, row).value.verified
            && Read(h, row).value.receipt == Norm(receipt)
            && Digest(h, Norm(receipt).fields) == Digest(h, receipt.fields)
            && Get(Norm(receipt).fields, DIGEST_KEY) == Some(Str(row.digest))
  {
    var fields, other := receipt.fields, Norm(receipt).fields;
    IsJsonWellFormed(receipt);
    CanonicalRoundTrip(receipt);
    NormIsJson(receipt);
    NormalForm(receipt);
    SameAfterStorage(h, receipt);
    DigestByFields(h, fields, other);
    NormFieldsKeys(fields);
    RekeyKeeps(NormFields(fields));
    var i := GetFrom(fields, DIGEST_KEY);
    NormFieldsAt(fields, i);
  }

  /** A value and its normal form are the same up to key order. */
  lemma NormalForm(v: Json)
    requires IsJson(v)
    ensures IsJson(Norm(v)) && Same(v, Norm(v)) && Same(Norm(v), v)
  {
    IsJsonWellFormed(v);
    NormIsJson(v);
    IsJsonWellFormed(Norm(v));
    CanonicalRoundTrip(v);
    ValueParses(Norm(v), []);
    CanonicalIsPlainNorm(Norm(v));
    CanonicalIsPlainNorm(v);
    NormIdempotent(v);
    NormThenSame(v, Norm(v));
    NormThenSame(Norm(v), v);
  }

  lemma {:induction false} NormIdempotent(v: Json)
    requires IsJson(v)
    ensures Norm(Norm(v)) == Norm(v)
    decreases v
  {
    IsJsonWellFormed(v);
    match v
    case Arr(items) =>
      forall i | 0 <= i < |items| ensures NormItems(NormItems(items))[i] == NormItems(items)[i] {
        NormIdempotent(items[i]);
      }
    case Obj(fields) =>
      var es := NormFields(fields);
      var sorted := Rekey(es);
      NormFieldsKeys(fields);
      RekeyKeeps(es);
      NormIsJson(v);
      NormFieldsKeys(sorted);
      forall k | k in Keys(sorted) ensures Get(NormFields(sorted), k) == Get(sorted, k) {
        var i :| 0 <= i < |sorted| && Keys(sorted)[i] == k;
        GetAt(sorted, i);
        assert IsJson(sorted[i].val);
        NormFieldsAt(sorted, i);
        var j :| 0 <= j < |fields| && fields[j].key == k && fields[j].val != Undefined;
        NormFieldsAt(fields, j);
        NormIdempotent(fields[j].val);
      }
      forall k ensures k in Keys(NormFields(sorted)) <==> k in Keys(es) { JsonHas(sorted, k); }
      RekeyEqual(NormFields(sorted), es);
    case _ =>
  }

  lemma SameAfterStorage(h: Host, receipt: Json)
    requires IsJson(receipt) && receipt.Obj?
    ensures var fields, other := receipt.fields, Norm(receipt).fields;
            && IsJson(Obj(other))
            && (forall k :: k in Keys(fields) <==> k in Keys(other))
            && (forall i, j | 0 <= i < |fields| && 0 <= j < |other| && fields[i].key == other[j].key != DIGEST_KEY ::
                  Agree(h, fields[i].key, fields[i].val, other[j].val))
  {
    var fields, other := receipt.fields, Norm(receipt).fields;
    NormalForm(receipt);
    assert Norm(receipt) == Obj(other);
    forall k ensures k in Keys(fields) <==> k in Keys(other) {
      JsonHas(fields, k);
      JsonHas(other, k);
    }
    forall i, j | 0 <= i < |fields| && 0 <= j < |other| && fields[i].key == other[j].key != DIGEST_KEY
      ensures Agree(h, fields[i].key, fields[i].val, other[j].val)
    {
      assert IsJson(fields[i].val) && IsJson(other[j].val);
      assert Same(fields[i].val, other[j].val) && Same(other[j].val, fields[i].val);
      NormalizeValueSame(h, fields[i].key, fields[i].val, other[j].val);
      NormalizeValueSame(h, fields[i].key, other[j].val, fields[i].val);
    }
  }

  // ---- Sealing ----

  /** `fields` with the digest computed over them. */
  function Sealed(h: Host, fields: Fields): Fields
    requires Digest(h, fields).Some?
  {
    fields + [Entry(DIGEST_KEY, Str(Digest(h, fields).value))]
  }

  lemma {:induction false} DigestFieldIgnored(h: Host, fields: Fields, v: Json)
    ensures Payload(h, fields + [Entry(DIGEST_KEY, v)]) == Payload(h, fields)
  {
    var more := fields + [Entry(DIGEST_KEY, v)];
    if fields == [] {
      assert more[1..] == [];
    } else {
      assert more[1..] == fields[1..] + [Entry(DIGEST_KEY, v)];
      DigestFieldIgnored(h, fields[1..], v);
    }
  }

  lemma {:induction false} GetLast(fields: Fields, e: Entry<Json>)
    requires e.key !in Keys(fields)
    ensures Get(fields + [e], e.key) == Some(e.val)
  {
    if fields != [] {
      assert (fields + [e])[1..] == fields[1..] + [e];
      assert Keys(fields) == [fields[0].key] + Keys(fields[1..]);
      GetLast(fields[1..], e);
    }
  }

  /** A receipt sealed with its own digest verifies, whenever the hash gives 64 units. */
  lemma SealedReceiptVerifies(h: Host, fields: Fields)
    requires DIGEST_KEY !in Keys(fields) && Digest(h, fields).Some? && forall s :: |h.sha(s)| == 64
    ensures Verifies(h, Obj(Sealed(h, fields)))
    ensures Digest(h, Sealed(h, fields)) == Digest(h, fields)
  {
    var d := Digest(h, fields).value;
    DigestFieldIgnored(h, fields, Str(d));
    GetLast(fields, Entry(DIGEST_KEY, Str(d)));
  }

  /** The payload of a receipt is a JSON value. */
  lemma PayloadIsJson(h: Host, fields: Fields)
    requires IsJson(Obj(fields)) && Payload(h, fields).Some?
    ensures IsJson(Obj(Payload(h, fields).value)) && WellFormed(Obj(Payload(h, fields).value))
  {
    PayloadHolds(h, fields);
    var p := Payload(h, fields).value;
    forall m | 0 <= m < |p| ensures IsJson(p[m].val) {
      var i := SourceField(h, fields, p[m]);
      SameRefl(fields[i].val);
      NormalizeValueSame(h, p[m].key, fields[i].val, fields[i].val);
    }
    IsJsonWellFormed(Obj(p));
  }

  /** When the hash has no collision and is written in lower case, two receipts that state the same
      digest and both verify have the same normalised payload: nothing the digest covers can differ. */
  lemma SameDigestSamePayload(h: Host, receipt: Json, other: Json)
    requires IsJson(receipt) && IsJson(other)
    requires (forall s, t :: h.sha(s) == h.sha(t) ==> s == t) && (forall s :: h.lower(h.sha(s)) == h.sha(s))
    ensures Verifies(h, receipt) && Verifies(h, other)
            && Get(receipt.fields, DIGEST_KEY) == Get(other.fields, DIGEST_KEY)
            ==> Same(Obj(Payload(h, receipt.fields).value), Obj(Payload(h, other.fields).value))
  {
    if Verifies(h, receipt) && Verifies(h, other) {
      PayloadIsJson(h, receipt.fields);
      PayloadIsJson(h, other.fields);
      CanonicalDecides(Obj(Payload(h, receipt.fields).value), Obj(Payload(h, other.fields).value));
    }
  }

  // ---- Cosmetic edits ----

  /** What ECMAScript promises of `toLowerCase` and the digest needs: it is idempotent and does not
      touch surrounding white space. */
  ghost predicate Lowering(lower: JsString -> JsString)
  {
    forall s :: lower(lower(s)) == lower(s) && Trim(lower(s)) == lower(Trim(s))
  }

  /** `ws` is `vs` with any of its strings trimmed. */
  ghost predicate ItemsTrimmed(vs: seq<Json>, ws: seq<Json>)
  {
    |vs| == |ws| && forall i :: 0 <= i < |vs| ==> ws[i] == vs[i] || (vs[i].Str? && ws[i] == Str(Trim(vs[i].s)))
  }

  lemma TrimmedItemsAgree(vs: seq<Json>, ws: seq<Json>)
    requires ItemsTrimmed(vs, ws)
    ensures TrimmedStrings(vs) == TrimmedStrings(ws)
  {
    forall i | 0 <= i < |vs|
      ensures StringOf(vs[i]).Some? <==> StringOf(ws[i]).Some?
      ensures StringOf(vs[i]).Some? ==> Trim(StringOf(vs[i]).value) == Trim(StringOf(ws[i]).value)
    {
      if ws[i] != vs[i] {
        TrimIdempotent(vs[i].s);
      }
    }
    if TrimmedStrings(vs).Some? {
      assert TrimmedStrings(vs).value == TrimmedStrings(ws).value;
    }
  }

  /** `w` is `v` with a list reordered or with items of it trimmed, or with a digest-like field trimmed
      or lower-cased, or with a plain field trimmed. */
  ghost predicate Cosmetic(h: Host, k: JsString, v: Json, w: Json)
  {
    || (IsListKey(k) && v.Arr? && w.Arr? && (multiset(v.items) == multiset(w.items) || ItemsTrimmed(v.items, w.items)))
    || (IsLowerKey(k) && v.Str? && w.Str? && (w.s == Trim(v.s) || (Lowering(h.lower) && w.s == h.lower(v.s))))
    || (IsTrimKey(k) && v.Str? && w.Str? && w.s == Trim(v.s))
  }

  /** The trimmed string of a list item; an item that throws counts as empty. */
  function TextOf(v: Json): JsString
  {
    Trim(StringOf(v).GetOr([]))
  }

  lemma {:induction false} TextsAreTrimmedStrings(items: seq<Json>, t: JsString)
    requires TrimmedStrings(items).Some?
    ensures multiset(TrimmedStrings(items).value)[t] == Count(TextOf, items, t)
  {
    if items != [] {
      TextsAreTrimmedStrings(items[1..], t);
      var ts := TrimmedStrings(items).value;
      assert ts == [ts[0]] + TrimmedStrings(items[1..]).value;
    }
  }

  lemma TrimmedMultiset(xs: seq<Json>, ys: seq<Json>)
    requires multiset(xs) == multiset(ys) && TrimmedStrings(xs).Some?
    ensures TrimmedStrings(ys).Some?
    ensures multiset(TrimmedStrings(xs).value) == multiset(TrimmedStrings(ys).value)
  {
    forall i | 0 <= i < |ys| ensures StringOf(ys[i]).Some? {
      assert ys[i] in multiset(ys);
      assert ys[i] in xs;
    }
    forall t ensures multiset(TrimmedStrings(xs).value)[t] == multiset(TrimmedStrings(ys).value)[t] {
      CountForgetsOrder(TextOf, xs, ys, t);
      TextsAreTrimmedStrings(xs, t);
      TextsAreTrimmedStrings(ys, t);
    }
  }

  lemma CosmeticLists(h: Host, k: JsString, v: Json, w: Json)
    requires v.Arr? && Cosmetic(h, k, v, w)
    ensures SortedList(v) == SortedList(w)
  {
    if ItemsTrimmed(v.items, w.items) {
      TrimmedItemsAgree(v.items, w.items);
    } else {
      if TrimmedStrings(w.items).Some? {
        TrimmedMultiset(w.items, v.items);
      }
      if TrimmedStrings(v.items).Some? {
        TrimmedMultiset(v.items, w.items);
        CanonicalJsonOrder.SortForgetsOrder(TrimmedStrings(v.items).value, TrimmedStrings(w.items).value);
      }
    }
  }

  lemma EqualListsAgree(h: Host, k: JsString, v: Json, w: Json)
    requires IsListKey(k) && v.Arr? && w.Arr? && SortedList(v) == SortedList(w)
    ensures Agree(h, k, v, w)
  {
    ListNormalised(h, k, v);
    ListNormalised(h, k, w);
    if SortedList(v).Some? {
      SameRefl(SortedList(v).value);
    }
  }

  lemma ListNormalised(h: Host, k: JsString, v: Json)
    requires IsListKey(k) && v.Arr?
    ensures NormalizeValue(h, k, v) == SortedList(v)
    ensures SortedList(v).Some? ==> IsJson(SortedList(v).value)
  {
  }

  lemma CosmeticAgree(h: Host, k: JsString, v: Json, w: Json)
    requires IsJson(v) && IsJson(w) && Cosmetic(h, k, v, w)
    ensures Agree(h, k, v, w)
  {
    if v.Arr? {
      CosmeticLists(h, k, v, w);
      EqualListsAgree(h, k, v, w);
    } else {
      TrimIdempotent(v.s);
    }
  }

  lemma EditedFieldsAgree(h: Host, fields: Fields, at: nat, w: Json, i: nat)
    requires IsJson(Obj(fields)) && at < |fields| && i < |fields| && IsJson(w)
    requires Cosmetic(h, fields[at].key, fields[at].val, w)
    ensures Agree(h, fields[i].key, fields[i].val, if i == at then w else fields[i].val)
  {
    if i == at {
      CosmeticAgree(h, fields[at].key, fields[at].val, w);
    } else {
      SameRefl(fields[i].val);
      NormalizeValueSame(h, fields[i].key, fields[i].val, fields[i].val);
    }
  }

  /** The digest ignores list order, white space around the normalised fields, and letter case in
      the digest-like ones. */
  lemma CosmeticEditKeepsDigest(h: Host, fields: Fields, at: nat, w: Json)
    requires IsJson(Obj(fields)) && at < |fields| && IsJson(w)
    requires Cosmetic(h, fields[at].key, fields[at].val, w)
    ensures Digest(h, fields[at := Entry(fields[at].key, w)]) == Digest(h, fields)
  {
    EditKeepsKeys(h, fields, at, w);
    DigestByFields(h, fields, fields[at := Entry(fields[at].key, w)]);
  }

  lemma EditKeepsKeys(h: Host, fields: Fields, at: nat, w: Json)
    requires IsJson(Obj(fields)) && at < |fields| && IsJson(w)
    requires Cosmetic(h, fields[at].key, fields[at].val, w)
    ensures var other := fields[at := Entry(fields[at].key, w)];
            && IsJson(Obj(other)) && Keys(other) == Keys(fields)
            && forall i, j | 0 <= i < |fields| && 0 <= j < |other| && fields[i].key == other[j].key != DIGEST_KEY ::
                 Agree(h, fields[i].key, fields[i].val, other[j].val)
  {
    var other := fields[at := Entry(fields[at].key, w)];
    assert Keys(other) == Keys(fields);
    forall i, j | 0 <= i < |fields| && 0 <= j < |other| && fields[i].key == other[j].key != DIGEST_KEY
      ensures Agree(h, fields[i].key, fields[i].val, other[j].val)
    {
      SameKeySameField(fields, i, j);
      EditedFieldsAgree(h, fields, at, w, i);
    }
  }

  lemma SameKeySameField(fields: Fields, i: nat, j: nat)
    requires Distinct(Keys(fields)) && i < |fields| && j < |fields| && fields[i].key == fields[j].key
    ensures i == j
  {
    assert Keys(fields)[i] == Keys(fields)[j];
  }
}
