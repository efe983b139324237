/** Histories of the ledger with the books kept beside them: every operation is a sequence of allowed
    elementary changes, so every reachable state satisfies the invariant. */
module LedgerHistory {
  import opened Options
  import opened JsText
  import opened LedgerModel
  import opened LedgerChanges
  import opened LedgerInvariant

  function BookReply(b: Books, reply: Reply): Books
  {
    if reply.Admitted? then BookRun(b, reply.id, reply.cost) else b
  }

  function BookRecord(b: Books, runs: seq<Run>, id: Id, fate: Fate): Books
    requires FindRun(runs, id).Some?
  {
    BookClose(b, runs[FindRun(runs, id).value], fate)
  }

  /** Judged on what the record says, not on what the ledger does with it: a reported cost pays, and
      only a failure that is certain, and came before any dispatch, frees. */
  function FateOf(observed: Option<real>, mayHaveCost: bool): Fate
  {
    if observed.Some? && observed.value >= 0.0 then Paid else if mayHaveCost then Kept else Freed
  }

  function BookEvent(h: Host, db: Db, b: Books, e: Event): Books
  {
    match e
    case EvReserve(q, t, newId) => BookReply(b, Reserve(h, db, q, t, newId).1)
    case EvSuccess(id, observed, receipt, allow, secret) =>
      if RecordSuccess(h, db, id, observed, receipt, allow, secret).1
      then BookRecord(b, db.runs, id, FateOf(observed, true)) else b
    case EvFailure(id, observed, ambiguous, dispatched) =>
      if RecordFailure(db, id, observed, ambiguous, dispatched).1
      then BookRecord(b, db.runs, id, FateOf(observed, ambiguous || dispatched)) else b
    case _ => b
  }

  function Observe(h: Host, w: World, e: Event): World
  {
    World(Apply(h, w.db, e), BookEvent(h, w.db, w.books, e))
  }

  function ObserveAll(h: Host, w: World, es: seq<Event>): World
  {
    if es == [] then w else Observe(h, ObserveAll(h, w, es[..|es| - 1]), es[|es| - 1])
  }

  function Reach(h: Host, config: Config, es: seq<Event>): World
  {
    ObserveAll(h, World(Empty(config), NoBooks), es)
  }

  // ---- Operations as sequences of changes ----

  lemma SweepRowLeads(w: World, x: World, i: nat, now: int)
    requires Leads(w, x) && i < |x.db.holds|
    ensures Leads(w, World(SweepRow(x.db, i, now), x.books))
  {
    var e := x.db.holds[i];
    if e.status == HoldAuthorized && StaleReason(x.db.grants, e, now).Some? {
      var grants := ExpireBoundGrant(x.db.grants, e, now);
      var y := World(x.db.(grants := grants), x.books);
      if grants != x.db.grants {
        var g := FindGrantId(x.db.grants, e.grantId).value;
        LeadsOn(w, x, ExpireGrant(g));
        assert Turn(x, ExpireGrant(g)) == y;
      } else {
        assert x == y;
      }
      LeadsOn(w, y, LapseHold(i));
      assert Turn(y, LapseHold(i)) == World(SweepRow(x.db, i, now), x.books);
    } else {
      assert World(SweepRow(x.db, i, now), x.books) == x;
    }
  }

  lemma {:induction false} SweepToLeads(w: World, x: World, n: nat, now: int)
    requires Leads(w, x) && n <= |x.db.holds|
    ensures Leads(w, World(SweepTo(x.db, n, now), x.books))
  {
    if n == 0 {
      assert World(SweepTo(x.db, n, now), x.books) == x;
    } else {
      SweepToLeads(w, x, n - 1, now);
      SweepRowLeads(w, World(SweepTo(x.db, n - 1, now), x.books), n - 1, now);
    }
  }

  lemma SweepLeads(w: World, x: World, now: int)
    requires Leads(w, x)
    ensures Leads(w, World(Sweep(x.db, now), x.books))
  {
    SweepToLeads(w, x, |x.db.holds|, now);
  }

  lemma {:induction false} RecoverToLeads(w: World, x: World, n: nat, threshold: int)
    requires Leads(w, x) && n <= |x.db.runs|
    ensures Leads(w, World(RecoverTo(x.db, n, threshold), x.books))
  {
    if n == 0 {
      assert World(RecoverTo(x.db, n, threshold), x.books) == x;
    } else {
      RecoverToLeads(w, x, n - 1, threshold);
      var y := World(RecoverTo(x.db, n - 1, threshold), x.books);
      if Orphan(y.db.runs[n - 1], threshold) {
        LeadsOn(w, y, Abandon(n - 1));
        assert Turn(y, Abandon(n - 1)) == World(RecoverTo(x.db, n, threshold), x.books);
      }
    }
  }

  lemma RecoverLeads(w: World, x: World, sweepAt: int, now: int)
    requires Leads(w, x)
    ensures Leads(w, World(Recover(x.db, sweepAt, now), x.books))
  {
    SweepLeads(w, x, sweepAt);
    var d := Sweep(x.db, sweepAt);
    RecoverToLeads(w, World(d, x.books), |d.runs|, now - DEADLINE_MS);
  }

  /** A sweep never spends a grant. */
  lemma {:induction false} SweepKeepsUses(db: Db, n: nat, now: int, g: nat)
    requires n <= |db.holds| && g < |db.grants|
    ensures var d := SweepTo(db, n, now);
            |d.grants| == |db.grants| && d.grants[g] == db.grants[g].(status := d.grants[g].status)
  {
    if n > 0 {
      SweepKeepsUses(db, n - 1, now, g);
    }
  }

  lemma AdmitLeads(w: World, x: World, q: Request, fingerprint: JsString, now: int, newId: Id, g: nat)
    requires Leads(w, x) && g < |x.db.grants| && x.db.grants[g].useCount == 0 && !AnyActive(x.db.runs)
    requires x.db.grants[g].token == Trim(x.db.grants[g].token)
    ensures var step := Admit(x.db, q, fingerprint, now, newId, g, FindHold(x.db.holds, Trim(x.db.grants[g].token)));
            Leads(w, World(step.0, BookReply(x.books, step.1)))
  {
    var hold := FindHold(x.db.holds, Trim(x.db.grants[g].token));
    var step := Admit(x.db, q, fingerprint, now, newId, g, hold);
    if step.1.Admitted? {
      var r := NewRun(q, fingerprint, x.db.grants[g].token, now, newId);
      LeadsOn(w, x, AddRun(r, g, hold));
      assert Turn(x, AddRun(r, g, hold)).db == step.0;
    }
  }

  lemma ReserveWithGrantLeads(w: World, x: World, q: Request, fingerprint: JsString, t: Clock, newId: Id, g: nat)
    requires Leads(w, x) && Inv(x) && g < |x.db.grants|
    requires x.db.grants[g].token == Trim(x.db.grants[g].token)
    ensures var step := ReserveWithGrant(x.db, q, fingerprint, t, newId, g);
            Leads(w, World(step.0, BookReply(x.books, step.1)))
  {
    var d, grant := x.db, x.db.grants[g];
    if grant.status == Expired || grant.expiresAt < t.now {
      ExpiryLeads(w, x, g, t.now);
    } else if grant.status == Issued && grant.useCount < grant.maxUses {
      SweptGrantLeads(w, x, q, fingerprint, t, newId, g);
    }
  }

  lemma SweptGrantLeads(w: World, x: World, q: Request, fingerprint: JsString, t: Clock, newId: Id, g: nat)
    requires Leads(w, x) && Inv(x) && g < |x.db.grants|
    requires x.db.grants[g].token == Trim(x.db.grants[g].token)
    requires x.db.grants[g].status == Issued && x.db.grants[g].expiresAt >= t.now
             && x.db.grants[g].useCount < x.db.grants[g].maxUses
    ensures var step := ReserveWithGrant(x.db, q, fingerprint, t, newId, g);
            Leads(w, World(step.0, BookReply(x.books, step.1)))
  {
    var s := Sweep(x.db, t.lookup);
    SweepLeads(w, x, t.lookup);
    SweepLength(x.db, t.lookup);
    IssuedIsUnused(x, t.lookup, g);
    if !AnyActive(s.runs) {
      AdmitLeads(w, World(s, x.books), q, fingerprint, t.now, newId, g);
    }
  }

  lemma ExpiryLeads(w: World, x: World, g: nat, now: int)
    requires Leads(w, x) && g < |x.db.grants|
    ensures Leads(w, World(Sweep(x.db.(grants := x.db.grants[g := x.db.grants[g].(status := Expired)]), now), x.books))
  {
    LeadsOn(w, x, ExpireGrant(g));
    SweepLeads(w, Turn(x, ExpireGrant(g)), now);
  }

  lemma IssuedIsUnused(x: World, now: int, g: nat)
    requires Inv(x) && g < |x.db.grants| && x.db.grants[g].status == Issued
    ensures var d := Sweep(x.db, now);
            |d.grants| == |x.db.grants| && d.grants[g] == x.db.grants[g].(status := d.grants[g].status)
            && d.grants[g].useCount == 0
  {
    SweepKeepsUses(x.db, |x.db.holds|, now, g);
    assert GrantOk(x.db.grants[g], LedgerSums.Uses(x.db.runs, x.db.grants[g].token));
  }

  lemma ReserveLeads(h: Host, w: World, q: Request, t: Clock, newId: Id)
    requires Inv(w)
    ensures Leads(w, Observe(h, w, EvReserve(q, t, newId)))
  {
    var x := World(Recover(w.db, t.sweep, t.deadline), w.books);
    LeadsHere(w);
    RecoverLeads(w, w, t.sweep, t.deadline);
    LeadsKeeps(w, x);
    ReserveSplits(h, w.db, q, t, newId);
    var g := FindGrant(x.db.grants, Trim(q.token));
    var step := Reserve(h, w.db, q, t, newId);
    if step.0 != x.db || step.1.Admitted? {
      TrimIdempotent(q.token);
      ReserveWithGrantLeads(w, x, q, Fingerprint(h, q), t, newId, g.value);
    }
  }

  /** A reservation that gets past recovery, the gates and the replay check goes on with a grant. */
  lemma ReserveSplits(h: Host, db: Db, q: Request, t: Clock, newId: Id)
    ensures var d := Recover(db, t.sweep, t.deadline);
            var g := FindGrant(d.grants, Trim(q.token));
            var step := Reserve(h, db, q, t, newId);
            step.0 != d || step.1.Admitted?
            ==> g.Some? && step == ReserveWithGrant(d, q, Fingerprint(h, q), t, newId, g.value)
  {
  }

  lemma CloseLeads(w: World, id: Id, status: RunStatus, fate: Fate, spent: real)
    requires FindRun(w.db.runs, id).Some?
    requires status != Reserved && status != InFlight && spent >= 0.0
    requires (status == Failed ==> fate != Kept) && (status == FailedUnreconciledCost || status == TimedOut ==> spent == 0.0)
    ensures Leads(w, World(Settle(w.db, FindRun(w.db.runs, id).value, status, fate == Kept, spent),
                           BookRecord(w.books, w.db.runs, id, fate)))
  {
    LeadsHere(w);
    LeadsOn(w, w, Close(FindRun(w.db.runs, id).value, status, fate, spent));
  }

  lemma SuccessLeads(h: Host, w: World, id: Id, observed: Option<real>, receipt: CanonicalJson.Json, allow: bool, secret: bool)
    ensures Leads(w, Observe(h, w, EvSuccess(id, observed, receipt, allow, secret)))
  {
    LeadsHere(w);
    var i := FindRun(w.db.runs, id);
    if RecordSuccess(h, w.db, id, observed, receipt, allow, secret).1 {
      CloseLeads(w, id, Completed, FateOf(observed, true), Spent(observed));
      var x := World(Settle(w.db, i.value, Completed, !Known(observed), Spent(observed)),
                     BookRecord(w.books, w.db.runs, id, FateOf(observed, true)));
      LeadsOn(w, x, Refile(x.db.receipts[id := Receipts.Stored(receipt)], x.db.config));
    }
  }

  lemma AuthorizeLeads(w: World, token: JsString, operator: JsString, reason: JsString, now: int, newId: Id)
    requires Inv(w)
    ensures Leads(w, World(Authorize(w.db, token, operator, reason, now, newId).0, w.books))
  {
    LeadsHere(w);
    SweepLeads(w, w, now);
    var x := World(Sweep(w.db, now), w.books);
    LeadsKeeps(w, x);
    var s := x.db;
    var g := FindGrant(s.grants, Trim(token));
    if Authorize(w.db, token, operator, reason, now, newId).1 {
      assert GrantOk(s.grants[g.value], LedgerSums.Uses(s.runs, s.grants[g.value].token));
      LeadsOn(w, x, AddHold(NewHold(s.grants[g.value], Trim(token), s.costs.unknown, s.config.floor, newId), g.value));
    }
  }

  lemma ReconcileLeads(w: World, a: Attestation, now: int)
    ensures Leads(w, World(Reconcile(w.db, a, now).0, w.books))
  {
    LeadsHere(w);
    if Reconcile(w.db, a, now).1 {
      var i := FindRun(w.db.runs, Trim(a.runId)).value;
      LeadsOn(w, w, Free(i, ReleaseAmount(a, w.db.runs[i]).value, a.observed.value));
    }
  }

  lemma IssueLeads(w: World, g: Grant)
    requires g.status == Issued && g.useCount == 0
    ensures Leads(w, World(IssueGrant(w.db, g).0, w.books))
  {
    LeadsHere(w);
    if IssueGrant(w.db, g).1 {
      LeadsOn(w, w, AddGrant(g));
    }
  }

  lemma MarkLeads(w: World, id: Id)
    ensures Leads(w, World(MarkInFlight(w.db, id), w.books))
  {
    LeadsHere(w);
    var i := FindRun(w.db.runs, id);
    if i.Some? && w.db.runs[i.value].status == Reserved {
      LeadsOn(w, w, Mark(i.value));
    }
  }

  /** Every operation is a sequence of allowed changes. */
  lemma EventLeads(h: Host, w: World, e: Event)
    requires Inv(w)
    ensures Leads(w, Observe(h, w, e))
  {
    LeadsHere(w);
    match e
    case EvIssue(id, token, ttl, uses, now, balance, cap) =>
      IssueLeads(w, NewGrant(id, token, ttl, uses, now, balance, cap));
    case EvReserve(q, t, newId) => ReserveLeads(h, w, q, t, newId);
    case EvMark(id) => MarkLeads(w, id);
    case EvSuccess(id, observed, receipt, allow, secret) => SuccessLeads(h, w, id, observed, receipt, allow, secret);
    case EvFailure(id, observed, ambiguous, dispatched) =>
      if FindRun(w.db.runs, id).Some? {
        CloseLeads(w, id, FailureStatus(observed, ambiguous, dispatched), FateOf(observed, ambiguous || dispatched),
                   Spent(observed));
      }
    case EvReconcile(a, now) => ReconcileLeads(w, a, now);
    case EvSweep(now) => SweepLeads(w, w, now);
    case EvAuthorize(token, operator, reason, now, newId) => AuthorizeLeads(w, token, operator, reason, now, newId);
    case EvRecover(sweepAt, now) => RecoverLeads(w, w, sweepAt, now);
    case EvStore(id, receipt, allow, secret) =>
      LeadsOn(w, w, Refile(StoreReceipt(h, w.db, id, receipt, allow, secret).0.receipts, w.db.config));
    case EvConfigure(config) =>
      LeadsOn(w, w, Refile(w.db.receipts, config));
  }

  // ---- Every reachable state ----

  lemma EmptyInv(config: Config)
    ensures Inv(World(Empty(config), NoBooks))
  {
  }

  lemma EventKeeps(h: Host, w: World, e: Event)
    requires Inv(w)
    ensures Inv(Observe(h, w, e))
  {
    EventLeads(h, w, e);
    LeadsKeeps(w, Observe(h, w, e));
  }

  lemma {:induction false} ObserveAllKeeps(h: Host, w: World, es: seq<Event>)
    requires Inv(w)
    ensures Inv(ObserveAll(h, w, es))
  {
    if es != [] {
      ObserveAllKeeps(h, w, es[..|es| - 1]);
      EventKeeps(h, ObserveAll(h, w, es[..|es| - 1]), es[|es| - 1]);
    }
  }

  lemma ReachInv(h: Host, config: Config, es: seq<Event>)
    ensures Inv(Reach(h, config, es))
  {
    EmptyInv(config);
    ObserveAllKeeps(h, World(Empty(config), NoBooks), es);
  }

  /** The books only watch: the tables are those of the ledger alone. */
  lemma {:induction false} BooksOnlyWatch(h: Host, config: Config, es: seq<Event>)
    ensures Reach(h, config, es).db == ApplyAll(h, Empty(config), es)
  {
    if es != [] {
      BooksOnlyWatch(h, config, es[..|es| - 1]);
    }
  }
}
