/** Idempotent replay over histories, and the receipts a history stores. */
module LedgerReplay {
  import opened Options
  import opened JsText
  import opened LedgerModel
  import opened LedgerChanges
  import opened LedgerInvariant
  import opened LedgerHistory
  import opened LedgerEvolution

  /** Row `i` is the run `id`, admitted under this key, token and payload fingerprint. */
  predicate RowIs(runs: seq<Run>, i: nat, key: JsString, token: JsString, fingerprint: JsString, id: Id)
  {
    i < |runs| && runs[i].key == Some(key) && runs[i].token == token && runs[i].fingerprint == fingerprint
    && runs[i].id == id
  }

  lemma RowStays(w: World, x: World, i: nat, key: JsString, token: JsString, fingerprint: JsString, id: Id)
    requires Evolves(w, x) && RowIs(w.db.runs, i, key, token, fingerprint, id)
    ensures RowIs(x.db.runs, i, key, token, fingerprint, id)
  {
    assert RunEvolves(w.db.runs[i], x.db.runs[i]);
  }

  lemma RecoverEvolves(w: World, sweepAt: int, now: int)
    requires Inv(w)
    ensures var x := World(Recover(w.db, sweepAt, now), w.books); Inv(x) && Evolves(w, x)
  {
    var x := World(Recover(w.db, sweepAt, now), w.books);
    LeadsHere(w);
    RecoverLeads(w, w, sweepAt, now);
    LeadsKeeps(w, x);
    LeadsEvolves(w, x);
  }

  lemma KeyFinds(w: World, i: nat, key: JsString, token: JsString, fingerprint: JsString, id: Id)
    requires RunsOk(w) && RowIs(w.db.runs, i, key, token, fingerprint, id)
    ensures FindKey(w.db.runs, key) == Some(i)
    ensures FindGrant(w.db.grants, token).Some?
  {
    assert HasGrant(w.db, w.db.runs[i].token);
  }

  /** A known key settles every later request that passes the gates and names a grant, with no effect
      beyond recovery: the same grant and payload get the same run back, anything else is refused. */
  lemma KeyDecides(h: Host, w: World, i: nat, key: JsString, token: JsString, fingerprint: JsString, id: Id,
                   q: Request, t: Clock, newId: Id)
    requires Inv(w) && RowIs(w.db.runs, i, key, token, fingerprint, id)
    requires LookupKey(q) == Some(key)
    requires Gate(h, Recover(w.db, t.sweep, t.deadline).config, q).None?
    ensures var d := Recover(w.db, t.sweep, t.deadline);
            var (after, reply) := Reserve(h, w.db, q, t, newId);
            && after == d
            && i < |d.runs|
            && reply == if FindGrant(d.grants, Trim(q.token)).None? then Refused(InvalidGrant)
                        else if Trim(q.token) != token then Refused(KeyContextMismatch)
                        else if Fingerprint(h, q) != fingerprint then Refused(KeyConflict)
                        else Replay(id, d.runs[i].status)
  {
    var x := World(Recover(w.db, t.sweep, t.deadline), w.books);
    RecoverEvolves(w, t.sweep, t.deadline);
    RowStays(w, x, i, key, token, fingerprint, id);
    KeyFinds(x, i, key, token, fingerprint, id);
  }

  /** The row a positive reply speaks of. */
  lemma ReplyHasRow(h: Host, w: World, q: Request, t: Clock, newId: Id) returns (i: nat)
    requires Inv(w) && LookupKey(q).Some?
    requires var reply := Reserve(h, w.db, q, t, newId).1; reply.Admitted? || reply.Replay?
    ensures RowIs(Reserve(h, w.db, q, t, newId).0.runs, i, LookupKey(q).value, Trim(q.token), Fingerprint(h, q),
                  Reserve(h, w.db, q, t, newId).1.id)
  {
    var d := Recover(w.db, t.sweep, t.deadline);
    var g := FindGrant(d.grants, Trim(q.token));
    var found := FindKey(d.runs, LookupKey(q).value);
    if found.Some? {
      i := found.value;
      ReplayedRow(h, w.db, q, t, newId, i);
    } else {
      KeyIsNew(h, w.db, q, t, newId);
      i := AdmittedRow(d, q, Fingerprint(h, q), t, newId, g.value);
    }
  }

  lemma ReplayedRow(h: Host, db: Db, q: Request, t: Clock, newId: Id, i: nat)
    requires LookupKey(q).Some? && FindKey(Recover(db, t.sweep, t.deadline).runs, LookupKey(q).value) == Some(i)
    requires var reply := Reserve(h, db, q, t, newId).1; reply.Admitted? || reply.Replay?
    ensures RowIs(Reserve(h, db, q, t, newId).0.runs, i, LookupKey(q).value, Trim(q.token), Fingerprint(h, q),
                  Reserve(h, db, q, t, newId).1.id)
  {
  }

  /** A new key leaves the reservation to the grant. */
  lemma KeyIsNew(h: Host, db: Db, q: Request, t: Clock, newId: Id)
    requires LookupKey(q).Some? && FindKey(Recover(db, t.sweep, t.deadline).runs, LookupKey(q).value).None?
    requires var reply := Reserve(h, db, q, t, newId).1; reply.Admitted? || reply.Replay?
    ensures var d := Recover(db, t.sweep, t.deadline);
            var g := FindGrant(d.grants, Trim(q.token));
            && g.Some? && Reserve(h, db, q, t, newId) == ReserveWithGrant(d, q, Fingerprint(h, q), t, newId, g.value)
            && Reserve(h, db, q, t, newId).1.Admitted?
  {
  }

  lemma AdmittedRow(d: Db, q: Request, fingerprint: JsString, t: Clock, newId: Id, g: nat) returns (i: nat)
    requires g < |d.grants| && LookupKey(q).Some? && ReserveWithGrant(d, q, fingerprint, t, newId, g).1.Admitted?
    ensures var (after, reply) := ReserveWithGrant(d, q, fingerprint, t, newId, g);
            RowIs(after.runs, i, LookupKey(q).value, d.grants[g].token, fingerprint, reply.id)
  {
    var s := Sweep(d, t.lookup);
    SweepLength(d, t.lookup);
    SweepKeepsUses(d, |d.holds|, t.lookup, g);
    i := |s.runs|;
  }

  /** Once a keyed reservation has been admitted or replayed, the same key, grant and payload give back
      the same run after any history whatever, and change nothing beyond recovery. */
  lemma ReplayIsStable(h: Host, config: Config, es: seq<Event>, q: Request, t: Clock, newId: Id, fs: seq<Event>,
                       again: Request, t2: Clock, newId2: Id)
    requires LookupKey(q).Some? && LookupKey(again) == LookupKey(q) && Trim(again.token) == Trim(q.token)
    requires Fingerprint(h, again) == Fingerprint(h, q)
    ensures var first := Reserve(h, Reach(h, config, es).db, q, t, newId).1;
            var d := Reach(h, config, es + [EvReserve(q, t, newId)] + fs).db;
            var recovered := Recover(d, t2.sweep, t2.deadline);
            var (after, reply) := Reserve(h, d, again, t2, newId2);
            (first.Admitted? || first.Replay?) && Gate(h, recovered.config, again).None?
            ==> reply.Replay? && reply.id == first.id && after == recovered
  {
    var first := Reserve(h, Reach(h, config, es).db, q, t, newId).1;
    var y := Reach(h, config, es + [EvReserve(q, t, newId)] + fs);
    if (first.Admitted? || first.Replay?) && Gate(h, Recover(y.db, t2.sweep, t2.deadline).config, again).None? {
      var i := RowLater(h, config, es, q, t, newId, fs);
      ReachInv(h, config, es + [EvReserve(q, t, newId)] + fs);
      ReplaysRow(h, y, i, q, first.id, again, t2, newId2);
    }
  }

  lemma ReplaysRow(h: Host, y: World, i: nat, q: Request, id: Id, again: Request, t: Clock, newId: Id)
    requires Inv(y) && LookupKey(q).Some? && LookupKey(again) == LookupKey(q) && Trim(again.token) == Trim(q.token)
    requires Fingerprint(h, again) == Fingerprint(h, q)
    requires RowIs(y.db.runs, i, LookupKey(q).value, Trim(q.token), Fingerprint(h, q), id)
    requires Gate(h, Recover(y.db, t.sweep, t.deadline).config, again).None?
    ensures var (after, reply) := Reserve(h, y.db, again, t, newId);
            reply.Replay? && reply.id == id && after == Recover(y.db, t.sweep, t.deadline)
  {
    var key, token, fingerprint := LookupKey(q).value, Trim(q.token), Fingerprint(h, q);
    KeyDecides(h, y, i, key, token, fingerprint, id, again, t, newId);
    var z := World(Recover(y.db, t.sweep, t.deadline), y.books);
    RecoverEvolves(y, t.sweep, t.deadline);
    RowStays(y, z, i, key, token, fingerprint, id);
    KeyFinds(z, i, key, token, fingerprint, id);
  }

  /** The row a positive reply speaks of is there after any further history. */
  lemma RowLater(h: Host, config: Config, es: seq<Event>, q: Request, t: Clock, newId: Id, fs: seq<Event>)
    returns (i: nat)
    requires LookupKey(q).Some?
    requires var reply := Reserve(h, Reach(h, config, es).db, q, t, newId).1; reply.Admitted? || reply.Replay?
    ensures RowIs(Reach(h, config, es + [EvReserve(q, t, newId)] + fs).db.runs, i, LookupKey(q).value, Trim(q.token),
                  Fingerprint(h, q), Reserve(h, Reach(h, config, es).db, q, t, newId).1.id)
  {
    var w, start := Reach(h, config, es), World(Empty(config), NoBooks);
    var e := EvReserve(q, t, newId);
    ReachInv(h, config, es);
    i := ReplyHasRow(h, w, q, t, newId);
    var x := Observe(h, w, e);
    EventKeeps(h, w, e);
    HistoryEvolves(h, x, fs);
    RowStays(x, ObserveAll(h, x, fs), i, LookupKey(q).value, Trim(q.token), Fingerprint(h, q),
             Reserve(h, w.db, q, t, newId).1.id);
    assert (es + [e])[..|es|] == es;
    ObserveTwice(h, start, es + [e], fs);
  }

  /** A reservation violates a table constraint only for a run identifier already taken, or for a key
      of white space, which is stored but never looked up: the first such key is taken for good. */
  lemma ConstraintViolatedOnlyBy(h: Host, db: Db, q: Request, t: Clock, newId: Id)
    ensures var d := Recover(db, t.sweep, t.deadline);
            Reserve(h, db, q, t, newId).1 == Refused(ConstraintViolation)
            ==> || FindRun(d.runs, newId).Some?
                || (LookupKey(q).None? && StoredKey(q) == Some([]) && FindKey(d.runs, []).Some?)
  {
    if Reserve(h, db, q, t, newId).1 == Refused(ConstraintViolation) {
      var d := Recover(db, t.sweep, t.deadline);
      var g := FindGrant(d.grants, Trim(q.token));
      ViolationOf(d, q, Fingerprint(h, q), t, newId, g.value);
    }
  }

  lemma ViolationOf(d: Db, q: Request, fingerprint: JsString, t: Clock, newId: Id, g: nat)
    requires g < |d.grants| && ReserveWithGrant(d, q, fingerprint, t, newId, g).1 == Refused(ConstraintViolation)
    ensures FindRun(d.runs, newId).Some? || (StoredKey(q).Some? && FindKey(d.runs, StoredKey(q).value).Some?)
  {
    SweepLength(d, t.lookup);
  }
}

/** The fingerprint of a request stands for its trimmed target and commit. */
module LedgerFingerprints {
  import opened Options
  import opened JsText
  import opened CanonicalJson
  import opened CanonicalJsonOrder
  import opened CanonicalJsonRoundTrip
  import opened LedgerModel

  function Context(q: Request): Json
  {
    Obj([Entry(Lit("target"), Str(Trim(q.target))), Entry(Lit("source_commit_id"), Str(Trim(q.commit)))])
  }

  lemma ContextWellFormed(q: Request)
    ensures WellFormed(Context(q))
  {
    var fields := Context(q).fields;
    assert Keys(fields)[0] != Keys(fields)[1] by { assert |Lit("target")| != |Lit("source_commit_id")|; }
  }

  lemma ContextSame(q: Request, p: Request)
    ensures Same(Context(q), Context(p)) <==> Trim(q.target) == Trim(p.target) && Trim(q.commit) == Trim(p.commit)
  {
    var a, b := Context(q).fields, Context(p).fields;
    assert a[0].key == b[0].key && a[1].key == b[1].key;
  }

  /** Two payloads share a fingerprint exactly when target and commit agree up to surrounding white
      space, as long as the digest has no collision. */
  lemma FingerprintDecides(h: Host, q: Request, p: Request)
    requires forall s, s' :: h.sha(s) == h.sha(s') ==> s == s'
    ensures Fingerprint(h, q) == Fingerprint(h, p)
            <==> Trim(q.target) == Trim(p.target) && Trim(q.commit) == Trim(p.commit)
  {
    ContextWellFormed(q);
    ContextWellFormed(p);
    CanonicalDecides(Context(q), Context(p));
    ContextSame(q, p);
    assert Fingerprint(h, q) == h.sha(Canonical(Context(q))) && Fingerprint(h, p) == h.sha(Canonical(Context(p)));
  }
}

/** Every receipt a history stores verifies when it is read. */
module LedgerReceipts {
  import opened Options
  import opened JsText
  import opened CanonicalJson
  import opened Receipts
  import opened ReceiptProofs
  import opened LedgerModel

  /** Receipts arrive as JSON values. */
  ghost predicate JsonEvent(e: Event)
  {
    (e.EvSuccess? || e.EvStore?) ==> IsJson(e.receipt)
  }

  lemma {:induction false} RecoverToKeepsReceipts(db: Db, n: nat, threshold: int)
    requires n <= |db.runs|
    ensures RecoverTo(db, n, threshold).receipts == db.receipts
  {
    if n > 0 {
      RecoverToKeepsReceipts(db, n - 1, threshold);
    }
  }

  lemma RecoverKeepsReceipts(db: Db, sweepAt: int, now: int)
    ensures Recover(db, sweepAt, now).receipts == db.receipts
  {
    var d := Sweep(db, sweepAt);
    SweepLength(db, sweepAt);
    RecoverToKeepsReceipts(d, |d.runs|, now - DEADLINE_MS);
  }

  lemma ReserveKeepsReceipts(h: Host, db: Db, q: Request, t: Clock, newId: Id)
    ensures Reserve(h, db, q, t, newId).0.receipts == db.receipts
  {
    var d := Recover(db, t.sweep, t.deadline);
    RecoverKeepsReceipts(db, t.sweep, t.deadline);
    var g := FindGrant(d.grants, Trim(q.token));
    if g.Some? {
      GrantKeepsReceipts(d, q, Fingerprint(h, q), t, newId, g.value);
    }
  }

  lemma GrantKeepsReceipts(d: Db, q: Request, fingerprint: JsString, t: Clock, newId: Id, g: nat)
    requires g < |d.grants|
    ensures ReserveWithGrant(d, q, fingerprint, t, newId, g).0.receipts == d.receipts
  {
    SweepLength(d, t.lookup);
    SweepLength(d.(grants := d.grants[g := d.grants[g].(status := Expired)]), t.now);
  }

  lemma StoredReads(h: Host, receipt: Json, allow: bool, secret: bool)
    requires IsJson(receipt) && Storable(h, receipt, allow, secret)
    ensures Reads(h, Stored(receipt))
  {
    StoredReceiptVerifies(h, receipt);
  }

  lemma OthersKeepReceipts(h: Host, db: Db, e: Event)
    requires !e.EvSuccess? && !e.EvStore?
    ensures Apply(h, db, e).receipts == db.receipts
  {
    match e
    case EvReserve(q, t, newId) => ReserveKeepsReceipts(h, db, q, t, newId);
    case EvSweep(now) => SweepLength(db, now);
    case EvAuthorize(token, operator, reason, now, newId) => SweepLength(db, now);
    case EvRecover(sweepAt, now) => RecoverKeepsReceipts(db, sweepAt, now);
    case _ =>
  }

  lemma RecordFilesReceipt(h: Host, db: Db, id: Id, observed: Option<real>, receipt: Json, allow: bool, secret: bool)
    requires IsJson(receipt) && ReceiptsRead(h, db.receipts)
    ensures ReceiptsRead(h, RecordSuccess(h, db, id, observed, receipt, allow, secret).0.receipts)
  {
    var step := RecordSuccess(h, db, id, observed, receipt, allow, secret);
    if step.1 {
      StoredReads(h, receipt, allow, secret);
      assert step.0.receipts == db.receipts[id := Stored(receipt)];
    }
  }

  lemma StoreFilesReceipt(h: Host, db: Db, id: Id, receipt: Json, allow: bool, secret: bool)
    requires IsJson(receipt) && ReceiptsRead(h, db.receipts)
    ensures ReceiptsRead(h, StoreReceipt(h, db, id, receipt, allow, secret).0.receipts)
  {
    if Storable(h, receipt, allow, secret) {
      StoredReads(h, receipt, allow, secret);
    }
  }

  lemma EventReads(h: Host, db: Db, e: Event)
    requires JsonEvent(e) && ReceiptsRead(h, db.receipts)
    ensures ReceiptsRead(h, Apply(h, db, e).receipts)
  {
    match e
    case EvSuccess(id, observed, receipt, allow, secret) =>
      RecordFilesReceipt(h, db, id, observed, receipt, allow, secret);
    case EvStore(id, receipt, allow, secret) => StoreFilesReceipt(h, db, id, receipt, allow, secret);
    case _ => OthersKeepReceipts(h, db, e);
  }

  /** In every reachable state each stored receipt parses, verifies, and carries the digest of its row. */
  lemma {:induction false} StoredReceiptsRead(h: Host, config: Config, es: seq<Event>)
    requires forall k :: 0 <= k < |es| ==> JsonEvent(es[k])
    ensures ReceiptsRead(h, ApplyAll(h, Empty(config), es).receipts)
  {
    if es != [] {
      StoredReceiptsRead(h, config, es[..|es| - 1]);
      EventReads(h, ApplyAll(h, Empty(config), es[..|es| - 1]), es[|es| - 1]);
    }
  }
}
