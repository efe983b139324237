/** What an operation never undoes: rows stay, finished runs stay finished, and settled exceptions are
    final. */
module LedgerEvolution {
  import opened Options
  import opened JsText
  import opened LedgerModel
  import opened LedgerChanges
  import opened LedgerInvariant
  import opened LedgerHistory

  /** A run keeps its identity, and neither becomes active again nor returns to RESERVED. */
  predicate RunEvolves(r: Run, q: Run)
  {
    && q.id == r.id && q.key == r.key && q.token == r.token && q.fingerprint == r.fingerprint
    && q.startedAt == r.startedAt
    && (Active(q) ==> Active(r))
    && (q.status == Reserved ==> r.status == Reserved)
  }

  predicate GrantEvolves(g: Grant, k: Grant)
  {
    && k == g.(useCount := k.useCount, status := k.status)
    && k.useCount >= g.useCount
    && (k.status == Issued ==> g.status == Issued)
  }

  /** A consumed or expired exception never changes. */
  predicate HoldEvolves(e: Hold, f: Hold)
  {
    && f == e.(status := f.status, run := f.run)
    && (e.status != HoldAuthorized ==> f == e)
  }

  ghost predicate Evolves(w: World, x: World)
  {
    && |w.db.runs| <= |x.db.runs| && |w.db.grants| <= |x.db.grants| && |w.db.holds| <= |x.db.holds|
    && (forall i :: 0 <= i < |w.db.runs| ==> RunEvolves(w.db.runs[i], x.db.runs[i]))
    && (forall i :: 0 <= i < |w.db.grants| ==> GrantEvolves(w.db.grants[i], x.db.grants[i]))
    && (forall i :: 0 <= i < |w.db.holds| ==> HoldEvolves(w.db.holds[i], x.db.holds[i]))
    && w.db.reconciliations <= x.db.reconciliations
    && w.books.stranded <= x.books.stranded
  }

  lemma RowsEvolve(w: World, c: Change)
    requires Allowed(w.db, c)
    ensures var d, x := w.db, Turn(w, c).db;
            && |d.runs| <= |x.runs| && |d.grants| <= |x.grants| && |d.holds| <= |x.holds|
            && (forall i :: 0 <= i < |d.grants| ==> GrantEvolves(d.grants[i], x.grants[i]))
            && (forall i :: 0 <= i < |d.holds| ==> HoldEvolves(d.holds[i], x.holds[i]))
            && d.reconciliations <= x.reconciliations
  {
  }

  lemma TurnEvolves(w: World, c: Change)
    requires Allowed(w.db, c) && RunsOk(w)
    ensures Evolves(w, Turn(w, c))
  {
    var x := Turn(w, c);
    RowsEvolve(w, c);
    forall i | 0 <= i < |w.db.runs| ensures RunEvolves(w.db.runs[i], x.db.runs[i]) {
      RunsPersist(w, c, i);
    }
    if c.Close? {
      assert RunOk(w.db.runs[c.i], w.books);
    }
  }

  lemma EvolvesOn(w: World, x: World, y: World)
    requires Evolves(w, x) && Evolves(x, y)
    ensures Evolves(w, y)
  {
    forall i | 0 <= i < |w.db.runs| ensures RunEvolves(w.db.runs[i], y.db.runs[i]) {
      assert RunEvolves(w.db.runs[i], x.db.runs[i]) && RunEvolves(x.db.runs[i], y.db.runs[i]);
    }
    forall i | 0 <= i < |w.db.grants| ensures GrantEvolves(w.db.grants[i], y.db.grants[i]) {
      assert GrantEvolves(w.db.grants[i], x.db.grants[i]) && GrantEvolves(x.db.grants[i], y.db.grants[i]);
    }
    forall i | 0 <= i < |w.db.holds| ensures HoldEvolves(w.db.holds[i], y.db.holds[i]) {
      assert HoldEvolves(w.db.holds[i], x.db.holds[i]) && HoldEvolves(x.db.holds[i], y.db.holds[i]);
    }
  }

  lemma {:induction false} PlayEvolves(w: World, cs: seq<Change>)
    requires Inv(w) && Legal(w, cs)
    ensures Evolves(w, Play(w, cs))
    decreases |cs|
  {
    if cs != [] {
      var init := cs[..|cs| - 1];
      PlayEvolves(w, init);
      PlayKeeps(w, init);
      TurnEvolves(Play(w, init), cs[|cs| - 1]);
      EvolvesOn(w, Play(w, init), Play(w, cs));
    }
  }

  lemma LeadsEvolves(w: World, x: World)
    requires Inv(w) && Leads(w, x)
    ensures Evolves(w, x)
  {
    var cs :| Legal(w, cs) && Play(w, cs) == x;
    PlayEvolves(w, cs);
  }

  /** Whatever operations follow, in whatever order, the tables only evolve. */
  lemma {:induction false} HistoryEvolves(h: Host, w: World, es: seq<Event>)
    requires Inv(w)
    ensures Evolves(w, ObserveAll(h, w, es))
  {
    if es != [] {
      var init := es[..|es| - 1];
      var x := ObserveAll(h, w, init);
      HistoryEvolves(h, w, init);
      ObserveAllKeeps(h, w, init);
      EventLeads(h, x, es[|es| - 1]);
      LeadsEvolves(x, Observe(h, x, es[|es| - 1]));
      EvolvesOn(w, x, ObserveAll(h, w, es));
    }
  }

  lemma {:induction false} ObserveTwice(h: Host, w: World, es: seq<Event>, fs: seq<Event>)
    ensures ObserveAll(h, w, es + fs) == ObserveAll(h, ObserveAll(h, w, es), fs)
    decreases |fs|
  {
    if fs == [] {
      assert es + fs == es;
    } else {
      var init := fs[..|fs| - 1];
      ObserveTwice(h, w, es, init);
      assert (es + fs)[..|es + fs| - 1] == es + init;
    }
  }
}
