/** The promises of the ledger over every history from empty tables. */
module LedgerResults {
  import opened Options
  import opened JsText
  import opened LedgerModel
  import opened LedgerSums
  import opened LedgerChanges
  import opened LedgerInvariant
  import opened LedgerHistory
  import opened LedgerEvolution

  // ---- Money ----

  /** Every estimate ever admitted is reserved, unknown, released, settled with a known cost, or freed
      by a failure before dispatch, late records included. */
  lemma ExposureConserved(h: Host, config: Config, es: seq<Event>)
    ensures var w := Reach(h, config, es);
            w.db.costs.reserved + w.db.costs.unknown + Released(w.db.reconciliations) + w.books.known + w.books.freed
            == w.books.admitted
  {
    ReachInv(h, config, es);
  }

  /** The aggregate row against the run rows. */
  lemma AggregatesAgree(h: Host, config: Config, es: seq<Event>)
    ensures var w := Reach(h, config, es);
            var c, runs := w.db.costs, w.db.runs;
            && c.reserved == Sum(runs, ReservedOf)
            && c.unknown == Sum(runs, UnknownOf) + w.books.stranded
            && c.observed == Sum(runs, ObservedOf) + w.books.replaced
            && c.metered == c.observed + c.unknown
            && w.books.stranded >= 0.0 && w.books.replaced >= 0.0
  {
    ReachInv(h, config, es);
  }

  /** A subtraction from the aggregate row never reaches its floor of zero. */
  lemma NothingIsClipped(h: Host, config: Config, es: seq<Event>, i: nat, amount: real)
    requires i < |Reach(h, config, es).db.runs|
    requires amount <= Reach(h, config, es).db.runs[i].unknown
    ensures var d := Reach(h, config, es).db;
            && Max0(d.costs.reserved - d.runs[i].reserved) == d.costs.reserved - d.runs[i].reserved
            && Max0(d.costs.unknown - amount) == d.costs.unknown - amount
  {
    ReachInv(h, config, es);
    ColumnsCover(Reach(h, config, es), i);
  }

  /** No run releases and still holds more than its estimate. */
  lemma ReleasesWithinEstimate(h: Host, config: Config, es: seq<Event>, i: nat)
    requires i < |Reach(h, config, es).db.runs|
    ensures var w := Reach(h, config, es);
            var r := w.db.runs[i];
            ReleasedFor(w.db.reconciliations, r.id) + r.unknown + r.reserved <= Estimated(w.books, r.id)
  {
    ReachInv(h, config, es);
  }

  /** A run with status FAILED holds no unknown cost; one that timed out or whose billing is unknown shows
      no observed cost; and every reconciliation released something, at least what it attests. */
  lemma StatusTells(h: Host, config: Config, es: seq<Event>, i: nat, k: nat)
    ensures var d := Reach(h, config, es).db;
            && (i < |d.runs| && d.runs[i].status == Failed ==> d.runs[i].unknown == 0.0)
            && (i < |d.runs| && (d.runs[i].status == FailedUnreconciledCost || d.runs[i].status == TimedOut)
                ==> d.runs[i].observed == 0.0)
            && (k < |d.reconciliations| ==> ReconciliationOk(d.reconciliations[k]))
  {
    ReachInv(h, config, es);
    var w := Reach(h, config, es);
    assert i < |w.db.runs| ==> RunOk(w.db.runs[i], w.books);
  }

  /** The event records an outcome for a run that already holds unknown cost. */
  predicate Strands(h: Host, db: Db, e: Event)
  {
    match e
    case EvSuccess(id, observed, receipt, allow, secret) =>
      RecordSuccess(h, db, id, observed, receipt, allow, secret).1 && db.runs[FindRun(db.runs, id).value].unknown != 0.0
    case EvFailure(id, observed, ambiguous, dispatched) =>
      FindRun(db.runs, id).Some? && db.runs[FindRun(db.runs, id).value].unknown != 0.0
    case _ => false
  }

  lemma StrandsBooked(h: Host, w: World, e: Event)
    requires Inv(w)
    ensures Observe(h, w, e).books.stranded >= w.books.stranded
    ensures Observe(h, w, e).books.stranded == w.books.stranded <==> !Strands(h, w.db, e)
  {
    if e.EvSuccess? || e.EvFailure? {
      var i := FindRun(w.db.runs, e.id);
      if i.Some? {
        assert RunOk(w.db.runs[i.value], w.books);
      }
    }
  }

  predicate StrandsAt(h: Host, config: Config, es: seq<Event>, k: nat)
    requires k < |es|
  {
    Strands(h, Reach(h, config, es[..k]).db, es[k])
  }

  ghost predicate NoneStrands(h: Host, config: Config, es: seq<Event>)
  {
    forall k :: 0 <= k < |es| ==> !StrandsAt(h, config, es, k)
  }

  lemma NoneStrandsUpTo(h: Host, config: Config, es: seq<Event>, n: nat)
    requires |es| == n + 1
    ensures NoneStrands(h, config, es) <==> NoneStrands(h, config, es[..n]) && !StrandsAt(h, config, es, n)
  {
    forall k | 0 <= k < n ensures StrandsAt(h, config, es[..n], k) == StrandsAt(h, config, es, k) {
      assert es[..n][..k] == es[..k];
    }
  }

  lemma {:induction false} StrandedIff(h: Host, config: Config, es: seq<Event>)
    ensures Reach(h, config, es).books.stranded == 0.0 <==> NoneStrands(h, config, es)
  {
    if es != [] {
      var n := |es| - 1;
      StrandedIff(h, config, es[..n]);
      ReachInv(h, config, es[..n]);
      StrandsBooked(h, Reach(h, config, es[..n]), es[n]);
      NoneStrandsUpTo(h, config, es, n);
    }
  }

  /** The aggregate unknown cost is the sum over the runs exactly when no record of the history
      overwrote a run that held unknown cost. */
  lemma UnknownAgreesIff(h: Host, config: Config, es: seq<Event>)
    ensures var d := Reach(h, config, es).db;
            d.costs.unknown == Sum(d.runs, UnknownOf)
            <==> NoneStrands(h, config, es)
  {
    AggregatesAgree(h, config, es);
    StrandedIff(h, config, es);
  }

  /** Exposure stranded by a late record can never be reconciled away. */
  lemma StrandedForever(h: Host, config: Config, es: seq<Event>, fs: seq<Event>)
    ensures Reach(h, config, es + fs).db.costs.unknown >= Reach(h, config, es).books.stranded
  {
    var w, x := Reach(h, config, es), Reach(h, config, es + fs);
    ReachInv(h, config, es);
    ReachInv(h, config, es + fs);
    ObserveTwice(h, World(Empty(config), NoBooks), es, fs);
    HistoryEvolves(h, w, fs);
    assert x == ObserveAll(h, w, fs);
    forall j | 0 <= j < |x.db.runs| ensures UnknownOf(x.db.runs[j]) >= 0.0 {
      assert RunOk(x.db.runs[j], x.books);
    }
    SumAtLeast(x.db.runs, UnknownOf);
  }

  // ---- Runs and grants ----

  /** At most one run is active, and exactly that run holds a reservation. */
  lemma OneActiveRun(h: Host, config: Config, es: seq<Event>, i: nat, j: nat)
    requires i < |Reach(h, config, es).db.runs| && j < |Reach(h, config, es).db.runs|
    ensures var runs := Reach(h, config, es).db.runs;
            && (Active(runs[i]) && Active(runs[j]) ==> i == j)
            && (runs[i].reserved > 0.0 <==> Active(runs[i]))
            && (runs[i].id == runs[j].id ==> i == j)
  {
    ReachInv(h, config, es);
    assert RunOk(Reach(h, config, es).db.runs[i], Reach(h, config, es).books);
  }

  /** A grant's use count is the number of runs that carry its token, at most one, and every run
      carries the token of a grant. */
  lemma GrantsSpentOnce(h: Host, config: Config, es: seq<Event>, g: nat, i: nat)
    requires g < |Reach(h, config, es).db.grants|
    ensures var d := Reach(h, config, es).db;
            && d.grants[g].useCount == Uses(d.runs, d.grants[g].token) <= 1
            && (d.grants[g].status == Consumed ==> d.grants[g].useCount == 1)
            && (d.grants[g].useCount == 1 ==> d.grants[g].status != Issued)
            && (i < |d.runs| ==> HasGrant(d, d.runs[i].token))
  {
    ReachInv(h, config, es);
    assert GrantOk(Reach(h, config, es).db.grants[g],
                   Uses(Reach(h, config, es).db.runs, Reach(h, config, es).db.grants[g].token));
  }

  /** No finished run becomes active again, no spent or expired grant is issued again, and a consumed
      or expired exception never changes, whatever happens next. */
  lemma NothingReturns(h: Host, config: Config, es: seq<Event>, fs: seq<Event>)
    ensures Evolves(Reach(h, config, es), Reach(h, config, es + fs))
  {
    ReachInv(h, config, es);
    ObserveTwice(h, World(Empty(config), NoBooks), es, fs);
    HistoryEvolves(h, Reach(h, config, es), fs);
  }

  // ---- Admission ----

  /** What a grant must be, and that the new run and its key are not taken. */
  predicate Usable(d: Db, q: Request, now: int, newId: Id, g: nat)
    requires g < |d.grants|
  {
    && d.grants[g].status == Issued && d.grants[g].expiresAt >= now && d.grants[g].useCount < d.grants[g].maxUses
    && FindRun(d.runs, newId).None?
    && (StoredKey(q).Some? ==> FindKey(d.runs, StoredKey(q).value).None?)
  }

  /** Everything an admission takes but a free ledger: the operator's gates are open, target and commit
      are the configured ones, the key is new, and the grant is usable. */
  predicate Cleared(h: Host, d: Db, q: Request, now: int, newId: Id)
  {
    var g := FindGrant(d.grants, Trim(q.token));
    && !d.config.killSwitch && d.config.liveGate && q.live
    && Trim(q.target) == d.config.target && q.target != []
    && h.lower(Trim(q.commit)) == h.lower(d.config.commit) && q.commit != []
    && !Blank(q.token) && g.Some?
    && (LookupKey(q).Some? ==> FindKey(d.runs, LookupKey(q).value).None?)
    && Usable(d, q, now, newId, g.value)
  }

  lemma GrantAdmittedIff(d: Db, q: Request, fingerprint: JsString, t: Clock, newId: Id, g: nat)
    requires g < |d.grants|
    ensures var (after, reply) := ReserveWithGrant(d, q, fingerprint, t, newId, g);
            && (reply.Admitted? <==> Usable(d, q, t.now, newId, g) && !AnyActive(d.runs))
            && (reply.Admitted? ==>
                  && reply == Admitted(newId, Estimate(q))
                  && after.runs == d.runs + [NewRun(q, fingerprint, d.grants[g].token, t.now, newId)]
                  && after.costs == d.costs.(reserved := d.costs.reserved + Estimate(q))
                  && |after.grants| == |d.grants| && after.grants[g].status == Consumed
                  && after.grants[g].useCount == d.grants[g].useCount + 1)
            && (!reply.Admitted? ==> after.runs == d.runs && after.costs == d.costs)
  {
    SweepLength(d, t.lookup);
    SweepKeepsUses(d, |d.holds|, t.lookup, g);
    SweepLength(d.(grants := d.grants[g := d.grants[g].(status := Expired)]), t.now);
  }

  /** A request is admitted exactly when the operator's gates are open, target and commit are the
      configured ones, its grant is issued, unexpired and unused, its key is new, and no run is active;
      then one run is added holding its estimate, and otherwise no run and no cost changes. */
  lemma AdmittedIff(h: Host, db: Db, q: Request, t: Clock, newId: Id)
    ensures var d := Recover(db, t.sweep, t.deadline);
            var (after, reply) := Reserve(h, db, q, t, newId);
            && (reply.Admitted? <==> Cleared(h, d, q, t.now, newId) && !AnyActive(d.runs))
            && (reply.Admitted? ==>
                  && after.runs == d.runs + [NewRun(q, Fingerprint(h, q), Trim(q.token), t.now, newId)]
                  && after.costs == d.costs.(reserved := d.costs.reserved + Estimate(q)))
            && (!reply.Admitted? ==> after.runs == d.runs && after.costs == d.costs)
  {
    var d := Recover(db, t.sweep, t.deadline);
    var g := FindGrant(d.grants, Trim(q.token));
    if g.Some? {
      GrantAdmittedIff(d, q, Fingerprint(h, q), t, newId, g.value);
    }
  }

  /** Some row of a key that is looked up, when there is one. */
  function KeyRow(d: Db, q: Request): Option<nat>
  {
    if LookupKey(q).Some? then FindKey(d.runs, LookupKey(q).value) else None
  }

  /** The facts behind a refusal. */
  predicate Justified(h: Host, d: Db, q: Request, now: int, newId: Id, why: Refusal)
  {
    var g := FindGrant(d.grants, Trim(q.token));
    match why
    case KillSwitch => d.config.killSwitch
    case GateClosed => !d.config.liveGate
    case NotLive => !q.live
    case InvalidTarget => q.target == [] || Trim(q.target) != d.config.target
    case InvalidSource => q.commit == [] || h.lower(Trim(q.commit)) != h.lower(d.config.commit)
    case MissingGrant => Blank(q.token)
    case InvalidGrant => g.None?
    case KeyContextMismatch => KeyRow(d, q).Some? && d.runs[KeyRow(d, q).value].token != Trim(q.token)
    case KeyConflict => KeyRow(d, q).Some? && d.runs[KeyRow(d, q).value].fingerprint != Fingerprint(h, q)
    case ExpiredGrant => g.Some? && (d.grants[g.value].status == Expired || d.grants[g.value].expiresAt < now)
    case GrantAlreadyUsed =>
      g.Some? && (d.grants[g.value].status == Consumed || d.grants[g.value].useCount >= d.grants[g.value].maxUses)
    case ConcurrencyLimit => AnyActive(d.runs)
    case ConstraintViolation =>
      FindRun(d.runs, newId).Some? || (StoredKey(q).Some? && FindKey(d.runs, StoredKey(q).value).Some?)
    case GrantNotActive => false
    case HoldUnavailable => false
  }

  lemma GrantRefusalJustified(h: Host, d: Db, q: Request, t: Clock, newId: Id, g: nat)
    requires FindGrant(d.grants, Trim(q.token)) == Some(g)
    ensures var reply := ReserveWithGrant(d, q, Fingerprint(h, q), t, newId, g).1;
            reply.Refused? ==> Justified(h, d, q, t.now, newId, reply.why)
  {
    SweepLength(d, t.lookup);
  }

  /** Every refusal has its cause in the recovered tables, the request and the clock; an inactive grant
      and an unavailable exception are never the cause. */
  lemma RefusalJustified(h: Host, db: Db, q: Request, t: Clock, newId: Id)
    ensures var d := Recover(db, t.sweep, t.deadline);
            var reply := Reserve(h, db, q, t, newId).1;
            reply.Refused? ==> Justified(h, d, q, t.now, newId, reply.why)
  {
    var d := Recover(db, t.sweep, t.deadline);
    var g := FindGrant(d.grants, Trim(q.token));
    if g.Some? {
      GrantRefusalJustified(h, d, q, t, newId, g.value);
    }
  }

  // ---- Cost-hold exceptions ----

  /** At most one exception is authorised; a token gets at most one ever; an authorised one is bound
      to an unused grant, a consumed one to a run with the same token; and each was authorised with
      its floor kept. */
  lemma HoldProtocol(h: Host, config: Config, es: seq<Event>, i: nat, j: nat)
    requires i < |Reach(h, config, es).db.holds| && j < |Reach(h, config, es).db.holds|
    ensures var d := Reach(h, config, es).db;
            var e := d.holds[i];
            && (i != j ==> d.holds[j].token != e.token)
            && (i != j ==> !(e.status == HoldAuthorized == d.holds[j].status))
            && (e.status == HoldAuthorized ==> Bound(d, e))
            && (e.status == HoldConsumed ==> SpentBy(d, e))
            && (e.run.Some? <==> e.status == HoldConsumed)
            && Covered(e)
  {
    ReachInv(h, config, es);
    assert HoldOk(Reach(h, config, es).db, Reach(h, config, es).db.holds[i]);
  }

  /** Once a run carries a token, no exception bound to that token is still authorised. */
  lemma AdmissionSettlesHold(h: Host, config: Config, es: seq<Event>, i: nat, j: nat)
    requires i < |Reach(h, config, es).db.runs| && j < |Reach(h, config, es).db.holds|
    requires Reach(h, config, es).db.holds[j].token == Reach(h, config, es).db.runs[i].token
    ensures Reach(h, config, es).db.holds[j].status != HoldAuthorized
  {
    ReachInv(h, config, es);
    var d := Reach(h, config, es).db;
    UsesZero(d.runs, d.runs[i].token);
    assert HoldOk(d, d.holds[j]);
    forall g | 0 <= g < |d.grants| && d.grants[g].token == d.runs[i].token ensures d.grants[g].useCount != 0 {
      assert GrantOk(d.grants[g], Uses(d.runs, d.grants[g].token));
    }
  }

  /** An authorised exception lapses exactly when its grant is past its time: the other three reasons
      the sweep tests for never occur. */
  lemma OnlyExpiryLapses(h: Host, config: Config, es: seq<Event>, i: nat, now: int)
    requires i < |Reach(h, config, es).db.holds|
    requires Reach(h, config, es).db.holds[i].status == HoldAuthorized
    ensures var d := Reach(h, config, es).db;
            var g := FindGrantId(d.grants, d.holds[i].grantId);
            && g.Some?
            && StaleReason(d.grants, d.holds[i], now)
               == if d.grants[g.value].status == Expired || d.grants[g.value].expiresAt < now
                  then Some(GrantExpired) else None
  {
    ReachInv(h, config, es);
    var d := Reach(h, config, es).db;
    assert HoldOk(d, d.holds[i]);
    BoundIsFresh(d, d.holds[i], now);
  }

  lemma BoundIsFresh(d: Db, e: Hold, now: int)
    requires GrantsOk(d) && Bound(d, e)
    ensures var g := FindGrantId(d.grants, e.grantId);
            && g.Some?
            && StaleReason(d.grants, e, now)
               == if d.grants[g.value].status == Expired || d.grants[g.value].expiresAt < now
                  then Some(GrantExpired) else None
  {
    var k :| 0 <= k < |d.grants| && d.grants[k].id == e.grantId && d.grants[k].token == e.token
             && d.grants[k].useCount == 0 && d.grants[k].status != Consumed && d.grants[k].maxUses == 1;
    assert FindGrantId(d.grants, e.grantId) == Some(k);
  }

  /** The refusal for an exception that is no longer authorised cannot happen. */
  lemma HoldAlwaysAvailable(h: Host, db: Db, q: Request, t: Clock, newId: Id)
    ensures Reserve(h, db, q, t, newId).1 != Refused(HoldUnavailable)
  {
    var d := Recover(db, t.sweep, t.deadline);
    var g := FindGrant(d.grants, Trim(q.token));
    if g.Some? {
      GrantNeverLacksHold(d, q, Fingerprint(h, q), t, newId, g.value);
    }
  }

  lemma GrantNeverLacksHold(d: Db, q: Request, fingerprint: JsString, t: Clock, newId: Id, g: nat)
    requires g < |d.grants|
    ensures ReserveWithGrant(d, q, fingerprint, t, newId, g).1 != Refused(HoldUnavailable)
  {
  }
}
