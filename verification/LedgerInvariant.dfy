/** What holds of the ledger in every reachable state, kept by every elementary change. */
module LedgerInvariant {
  import opened Options
  import opened JsText
  import opened LedgerModel
  import opened LedgerSums
  import opened LedgerChanges

  ghost predicate GrantOk(g: Grant, uses: nat)
  {
    && g.useCount == uses <= 1
    && (g.useCount == 1 ==> g.status != Issued)
    && (g.status == Consumed ==> g.useCount == 1)
  }

  /** Each token is spent at most once, and the use count says whether it was. */
  ghost predicate GrantsOk(db: Db)
  {
    && (forall i, j :: 0 <= i < j < |db.grants| ==> db.grants[i].id != db.grants[j].id)
    && (forall i, j :: 0 <= i < j < |db.grants| ==> db.grants[i].token != db.grants[j].token)
    && (forall i :: 0 <= i < |db.grants| ==> GrantOk(db.grants[i], Uses(db.runs, db.grants[i].token)))
    && Spendings(db.grants) == |db.runs|
  }

  /** A run holds a reservation exactly while it is active, and then it holds all of its estimate; a
      failed run holds no unknown cost, and one of unknown billing shows no observed cost. */
  ghost predicate RunOk(r: Run, b: Books)
  {
    && r.reserved >= 0.0 && r.observed >= 0.0 && r.unknown >= 0.0
    && (r.reserved > 0.0 <==> Active(r))
    && (Active(r) ==> r.unknown == 0.0 == r.observed && r.reserved == Estimated(b, r.id))
    && (r.status == Failed ==> r.unknown == 0.0)
    && (r.status == FailedUnreconciledCost || r.status == TimedOut ==> r.observed == 0.0)
  }

  ghost predicate HasGrant(db: Db, token: JsString)
  {
    exists g :: 0 <= g < |db.grants| && db.grants[g].token == token
  }

  ghost predicate RunsOk(w: World)
  {
    var runs := w.db.runs;
    && (forall i, j :: 0 <= i < j < |runs| ==> runs[i].id != runs[j].id)
    && (forall i, j :: 0 <= i < j < |runs| && runs[i].key.Some? ==> runs[i].key != runs[j].key)
    && (forall i, j :: 0 <= i < j < |runs| ==> !(Active(runs[i]) && Active(runs[j])))
    && (forall i :: 0 <= i < |runs| ==> RunOk(runs[i], w.books))
    && (forall i :: 0 <= i < |runs| ==> HasGrant(w.db, runs[i].token))
  }

  /** What a run released and still holds stays within its estimate. */
  ghost predicate ReleasesOk(w: World)
  {
    var runs, recs := w.db.runs, w.db.reconciliations;
    && (forall i :: 0 <= i < |runs| ==>
          ReleasedFor(recs, runs[i].id) + runs[i].unknown + runs[i].reserved <= Estimated(w.books, runs[i].id))
    && (forall k :: 0 <= k < |recs| ==> FindRun(runs, recs[k].runId).Some? && ReconciliationOk(recs[k]))
  }

  /** The attested cost fits what was released, and what is left is not negative. */
  predicate ReconciliationOk(r: Reconciliation)
  {
    r.released > 0.0 && 0.0 <= r.observed <= r.released && r.remaining >= 0.0
  }

  ghost predicate CostsOk(w: World)
  {
    var c, b, runs := w.db.costs, w.books, w.db.runs;
    && c.reserved == Sum(runs, ReservedOf)
    && c.unknown == Sum(runs, UnknownOf) + b.stranded
    && c.observed == Sum(runs, ObservedOf) + b.replaced
    && c.metered == c.observed + c.unknown
    && b.stranded >= 0.0 && b.replaced >= 0.0
  }

  /** Every admitted estimate is somewhere. */
  ghost predicate Conserved(w: World)
  {
    var c, b := w.db.costs, w.books;
    c.reserved + c.unknown + Released(w.db.reconciliations) + b.known + b.freed == b.admitted
  }

  /** The grant an exception is bound to, unused and usable exactly once. */
  ghost predicate Bound(db: Db, e: Hold)
  {
    exists g :: 0 <= g < |db.grants| && db.grants[g].id == e.grantId && db.grants[g].token == e.token
                && db.grants[g].useCount == 0 && db.grants[g].status != Consumed && db.grants[g].maxUses == 1
  }

  /** The run an exception was consumed by. */
  ghost predicate SpentBy(db: Db, e: Hold)
  {
    exists i :: 0 <= i < |db.runs| && e.run == Some(db.runs[i].id) && db.runs[i].token == e.token
  }

  ghost predicate HoldOk(db: Db, e: Hold)
  {
    && Covered(e)
    && (e.status == HoldAuthorized ==> Bound(db, e))
    && (e.status == HoldConsumed ==> SpentBy(db, e))
    && (e.run.Some? <==> e.status == HoldConsumed)
  }

  ghost predicate HoldsOk(db: Db)
  {
    && (forall i, j :: 0 <= i < j < |db.holds| ==> !(db.holds[i].status == HoldAuthorized == db.holds[j].status))
    && (forall i, j :: 0 <= i < j < |db.holds| ==> db.holds[i].token != db.holds[j].token)
    && (forall i :: 0 <= i < |db.holds| ==> HoldOk(db, db.holds[i]))
  }

  ghost predicate Inv(w: World)
  {
    GrantsOk(w.db) && RunsOk(w) && ReleasesOk(w) && CostsOk(w) && Conserved(w) && HoldsOk(w.db)
  }

  // ---- Each change keeps the invariant ----

  /** Only an admission spends a token, and it spends just one. */
  lemma UsesKept(w: World, c: Change, token: JsString)
    requires Allowed(w.db, c)
    ensures Uses(Turn(w, c).db.runs, token)
            == Uses(w.db.runs, token) + if c.AddRun? && c.run.token == token then 1 else 0
  {
    if c.AddRun? {
      UsesAppend(w.db.runs, c.run, token);
    } else if c.Mark? || c.Close? || c.Abandon? || c.Free? {
      UsesUpdate(w.db.runs, c.i, Turn(w, c).db.runs[c.i], token);
    }
  }

  lemma GrantKept(w: World, c: Change, i: nat)
    requires Allowed(w.db, c) && GrantsOk(w.db) && RunsOk(w) && i < |Turn(w, c).db.grants|
    ensures var d := Turn(w, c).db; GrantOk(d.grants[i], Uses(d.runs, d.grants[i].token))
  {
    if i < |w.db.grants| {
      OldGrantKept(w, c, i);
    } else {
      UsesKept(w, c, c.grant.token);
      UsesZero(w.db.runs, c.grant.token);
    }
  }

  lemma OldGrantKept(w: World, c: Change, i: nat)
    requires Allowed(w.db, c) && i < |w.db.grants| && GrantOk(w.db.grants[i], Uses(w.db.runs, w.db.grants[i].token))
    requires forall j :: 0 <= j < |w.db.grants| && j != i ==> w.db.grants[j].token != w.db.grants[i].token
    ensures var d := Turn(w, c).db; i < |d.grants| && GrantOk(d.grants[i], Uses(d.runs, d.grants[i].token))
  {
    UsesKept(w, c, w.db.grants[i].token);
  }

  lemma SpendingsKept(w: World, c: Change)
    requires Allowed(w.db, c) && Spendings(w.db.grants) == |w.db.runs|
    ensures Spendings(Turn(w, c).db.grants) == |Turn(w, c).db.runs|
  {
    if c.AddGrant? {
      SpendingsAppend(w.db.grants, c.grant);
    } else if c.ExpireGrant? || c.AddRun? {
      SpendingsUpdate(w.db.grants, c.g, Turn(w, c).db.grants[c.g]);
    }
  }

  lemma GrantIdsKept(w: World, c: Change)
    requires Allowed(w.db, c) && GrantsOk(w.db)
    ensures var grants := Turn(w, c).db.grants;
            && (forall i, j :: 0 <= i < j < |grants| ==> grants[i].id != grants[j].id)
            && (forall i, j :: 0 <= i < j < |grants| ==> grants[i].token != grants[j].token)
  {
  }

  lemma GrantsKept(w: World, c: Change)
    requires Allowed(w.db, c) && GrantsOk(w.db) && RunsOk(w)
    ensures GrantsOk(Turn(w, c).db)
  {
    var d := Turn(w, c).db;
    SpendingsKept(w, c);
    GrantIdsKept(w, c);
    forall i | 0 <= i < |d.grants| ensures GrantOk(d.grants[i], Uses(d.runs, d.grants[i].token)) {
      GrantKept(w, c, i);
    }
  }

  lemma HasGrantKept(w: World, c: Change, token: JsString)
    requires Allowed(w.db, c) && HasGrant(w.db, token)
    ensures HasGrant(Turn(w, c).db, token)
  {
    var d := Turn(w, c).db;
    var g :| 0 <= g < |w.db.grants| && w.db.grants[g].token == token;
    assert d.grants[g].token == token;
  }

  lemma RunKept(w: World, c: Change, i: nat)
    requires Allowed(w.db, c) && RunsOk(w) && i < |Turn(w, c).db.runs|
    ensures RunOk(Turn(w, c).db.runs[i], Turn(w, c).books)
    ensures HasGrant(Turn(w, c).db, Turn(w, c).db.runs[i].token)
  {
    var x := Turn(w, c);
    if i < |w.db.runs| {
      assert RunOk(w.db.runs[i], w.books);
      HasGrantKept(w, c, w.db.runs[i].token);
    } else {
      assert x.db.grants[c.g].token == x.db.runs[i].token;
    }
  }

  /** No change touches the identity of a run. */
  lemma RunsPersist(w: World, c: Change, i: nat)
    requires Allowed(w.db, c) && i < |w.db.runs|
    ensures |w.db.runs| <= |Turn(w, c).db.runs|
    ensures var r, q := w.db.runs[i], Turn(w, c).db.runs[i];
            && q == r.(status := q.status, reserved := q.reserved, observed := q.observed, unknown := q.unknown)
            && (Active(q) ==> Active(r))
            && (q.status == Reserved ==> r.status == Reserved)
  {
  }

  lemma RunsKept(w: World, c: Change)
    requires Allowed(w.db, c) && RunsOk(w)
    ensures RunsOk(Turn(w, c))
  {
    var x := Turn(w, c);
    var runs := x.db.runs;
    forall i | 0 <= i < |runs| ensures RunOk(runs[i], x.books) && HasGrant(x.db, runs[i].token) {
      RunKept(w, c, i);
    }
    forall i, j | 0 <= i < j < |runs|
      ensures runs[i].id != runs[j].id && (runs[i].key.Some? ==> runs[i].key != runs[j].key)
              && !(Active(runs[i]) && Active(runs[j]))
    {
      RunsPersist(w, c, i);
      if j < |w.db.runs| {
        RunsPersist(w, c, j);
      }
    }
  }

  lemma ReleaseKept(w: World, c: Change, i: nat)
    requires Allowed(w.db, c) && RunsOk(w) && ReleasesOk(w) && i < |Turn(w, c).db.runs|
    ensures var x := Turn(w, c);
            var r := x.db.runs[i];
            ReleasedFor(x.db.reconciliations, r.id) + r.unknown + r.reserved <= Estimated(x.books, r.id)
  {
    if i < |w.db.runs| {
      RunsPersist(w, c, i);
      assert RunOk(w.db.runs[i], w.books);
      ReleasedKept(w, c, w.db.runs[i].id);
    } else {
      ReleasedForNone(w.db.reconciliations, c.run.id);
    }
  }

  /** Only a release adds to what a run released. */
  lemma ReleasedKept(w: World, c: Change, id: Id)
    requires Allowed(w.db, c)
    ensures ReleasedFor(Turn(w, c).db.reconciliations, id)
            == ReleasedFor(w.db.reconciliations, id) + if c.Free? && w.db.runs[c.i].id == id then c.amount else 0.0
  {
    if c.Free? {
      ReleasedAppend(w.db.reconciliations, Turn(w, c).db.reconciliations[|w.db.reconciliations|]);
    }
  }

  lemma FoundKept(w: World, c: Change, id: Id)
    requires Allowed(w.db, c) && FindRun(w.db.runs, id).Some?
    ensures FindRun(Turn(w, c).db.runs, id).Some?
  {
    var j := FindRun(w.db.runs, id).value;
    RunsPersist(w, c, j);
    assert Turn(w, c).db.runs[j].id == id;
  }

  lemma ReleasesKept(w: World, c: Change)
    requires Allowed(w.db, c) && RunsOk(w) && ReleasesOk(w)
    ensures ReleasesOk(Turn(w, c))
  {
    var x := Turn(w, c);
    var runs, recs := x.db.runs, x.db.reconciliations;
    forall i | 0 <= i < |runs|
      ensures ReleasedFor(recs, runs[i].id) + runs[i].unknown + runs[i].reserved <= Estimated(x.books, runs[i].id)
    {
      ReleaseKept(w, c, i);
    }
    forall k | 0 <= k < |recs| ensures FindRun(runs, recs[k].runId).Some? && ReconciliationOk(recs[k]) {
      if k < |w.db.reconciliations| {
        FoundKept(w, c, recs[k].runId);
      } else {
        assert runs[c.i].id == recs[k].runId;
      }
    }
  }

  /** The three column sums after run `i` becomes `r`. */
  lemma ColumnsUpdate(runs: seq<Run>, i: nat, r: Run)
    requires i < |runs|
    ensures Sum(runs[i := r], ReservedOf) == Sum(runs, ReservedOf) - runs[i].reserved + r.reserved
    ensures Sum(runs[i := r], UnknownOf) == Sum(runs, UnknownOf) - runs[i].unknown + r.unknown
    ensures Sum(runs[i := r], ObservedOf) == Sum(runs, ObservedOf) - runs[i].observed + r.observed
  {
    SumUpdate(runs, i, r, ReservedOf);
    SumUpdate(runs, i, r, UnknownOf);
    SumUpdate(runs, i, r, ObservedOf);
  }

  /** The aggregate row never falls short of a run row. */
  lemma ColumnsCover(w: World, i: nat)
    requires RunsOk(w) && CostsOk(w) && i < |w.db.runs|
    ensures w.db.costs.reserved >= w.db.runs[i].reserved
    ensures w.db.costs.unknown >= w.db.runs[i].unknown
  {
    var runs := w.db.runs;
    forall j | 0 <= j < |runs| ensures ReservedOf(runs[j]) >= 0.0 && UnknownOf(runs[j]) >= 0.0 {
      assert RunOk(runs[j], w.books);
    }
    SumAtLeast(runs, ReservedOf);
    SumAtLeast(runs, UnknownOf);
    assert ReservedOf(runs[i]) == runs[i].reserved && UnknownOf(runs[i]) == runs[i].unknown;
  }

  lemma ColumnsKept(w: World, c: Change)
    requires Allowed(w.db, c) && RunsOk(w) && CostsOk(w)
    requires c.Mark? || c.Close? || c.Abandon? || c.Free?
    ensures CostsOk(Turn(w, c))
  {
    assert RunOk(w.db.runs[c.i], w.books);
    ColumnsCover(w, c.i);
    ColumnsUpdate(w.db.runs, c.i, Turn(w, c).db.runs[c.i]);
  }

  lemma CostsKept(w: World, c: Change)
    requires Allowed(w.db, c) && RunsOk(w) && CostsOk(w)
    ensures CostsOk(Turn(w, c))
  {
    if c.AddRun? {
      SumAppend(w.db.runs, c.run, ReservedOf);
      SumAppend(w.db.runs, c.run, UnknownOf);
      SumAppend(w.db.runs, c.run, ObservedOf);
    } else if c.Mark? || c.Close? || c.Abandon? || c.Free? {
      ColumnsKept(w, c);
    }
  }

  lemma ConservedKept(w: World, c: Change)
    requires Allowed(w.db, c) && RunsOk(w) && CostsOk(w) && Conserved(w)
    ensures Conserved(Turn(w, c))
  {
    if c.Close? || c.Abandon? || c.Free? {
      assert RunOk(w.db.runs[c.i], w.books);
      ColumnsCover(w, c.i);
      if c.Free? {
        ReleasedAppend(w.db.reconciliations, Turn(w, c).db.reconciliations[|w.db.reconciliations|]);
      }
    }
  }

  lemma BoundKept(w: World, c: Change, e: Hold)
    requires Allowed(w.db, c) && GrantsOk(w.db) && Bound(w.db, e)
    requires c.AddRun? ==> e.token != c.run.token
    ensures Bound(Turn(w, c).db, e)
  {
    var d := Turn(w, c).db;
    var g :| 0 <= g < |w.db.grants| && w.db.grants[g].id == e.grantId && w.db.grants[g].token == e.token
             && w.db.grants[g].useCount == 0 && w.db.grants[g].status != Consumed && w.db.grants[g].maxUses == 1;
    assert d.grants[g].id == e.grantId && d.grants[g].token == e.token
           && d.grants[g].useCount == 0 && d.grants[g].status != Consumed && d.grants[g].maxUses == 1;
  }

  lemma SpentByKept(w: World, c: Change, e: Hold)
    requires Allowed(w.db, c) && SpentBy(w.db, e)
    ensures SpentBy(Turn(w, c).db, e)
  {
    var d := Turn(w, c).db;
    var i :| 0 <= i < |w.db.runs| && e.run == Some(w.db.runs[i].id) && w.db.runs[i].token == e.token;
    assert e.run == Some(d.runs[i].id) && d.runs[i].token == e.token;
  }

  lemma HoldKept(w: World, c: Change, i: nat)
    requires Allowed(w.db, c) && GrantsOk(w.db) && HoldsOk(w.db) && i < |Turn(w, c).db.holds|
    ensures HoldOk(Turn(w, c).db, Turn(w, c).db.holds[i])
  {
    var d := Turn(w, c).db;
    var e := d.holds[i];
    if c.AddHold? && i == |w.db.holds| {
      assert d.grants[c.g].id == e.grantId;
    } else {
      var o := w.db.holds[i];
      assert HoldOk(w.db, o);
      if o.status == HoldConsumed {
        SpentByKept(w, c, o);
      } else if c.AddRun? && c.hold == Some(i) {
        assert e.run == Some(d.runs[|w.db.runs|].id);
      } else if o.status == HoldAuthorized {
        BoundKept(w, c, o);
      }
    }
  }

  lemma HoldsKept(w: World, c: Change)
    requires Allowed(w.db, c) && GrantsOk(w.db) && HoldsOk(w.db)
    ensures HoldsOk(Turn(w, c).db)
  {
    forall i | 0 <= i < |Turn(w, c).db.holds| ensures HoldOk(Turn(w, c).db, Turn(w, c).db.holds[i]) {
      HoldKept(w, c, i);
    }
  }

  lemma TurnKeeps(w: World, c: Change)
    requires Allowed(w.db, c) && Inv(w)
    ensures Inv(Turn(w, c))
  {
    GrantsKept(w, c);
    RunsKept(w, c);
    ReleasesKept(w, c);
    CostsKept(w, c);
    ConservedKept(w, c);
    HoldsKept(w, c);
  }

  lemma {:induction false} PlayKeeps(w: World, cs: seq<Change>)
    requires Inv(w) && Legal(w, cs)
    ensures Inv(Play(w, cs))
    decreases |cs|
  {
    if cs != [] {
      PlayKeeps(w, cs[..|cs| - 1]);
      TurnKeeps(Play(w, cs[..|cs| - 1]), cs[|cs| - 1]);
    }
  }

  lemma LeadsKeeps(w: World, x: World)
    requires Inv(w) && Leads(w, x)
    ensures Inv(x)
  {
    var cs :| Legal(w, cs) && Play(w, cs) == x;
    PlayKeeps(w, cs);
  }
}
