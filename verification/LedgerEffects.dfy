/** What each ledger operation does, said of the fields it reads and writes. */
module LedgerEffects {
  import opened Options
  import opened JsText
  import opened CanonicalJson
  import opened Receipts
  import opened LedgerModel
  import opened LedgerSums
  import opened LedgerChanges
  import opened LedgerInvariant
  import opened LedgerHistory
  import opened LedgerSweeps
  import JsonParser
  import LedgerResults
  import LedgerReceipts

  // ---- issueGrant ----

  /** A grant carries what it was issued with, and is refused exactly for a taken identifier or token. */
  lemma IssueEffect(h: Host, db: Db, id: Id, token: JsString, ttl: int, uses: int, now: int,
                    balance: Option<real>, cap: Option<real>)
    ensures var d := Apply(h, db, EvIssue(id, token, ttl, uses, now, balance, cap));
            var taken := exists i :: 0 <= i < |db.grants| && (db.grants[i].id == id || db.grants[i].token == token);
            && (taken ==> d == db)
            && (!taken ==>
                  && d == db.(grants := d.grants) && |d.grants| == |db.grants| + 1 && db.grants <= d.grants
                  && var g := d.grants[|db.grants|];
                     && g.id == id && g.token == token && g.expiresAt == now + 1000 * ttl && g.maxUses == uses
                     && g.useCount == 0 && g.status == Issued && g.balance == balance && g.costCap == cap)
  {
  }

  // ---- expireStaleCostHoldExceptions and recoverDurableState ----

  /** The grant an exception is bound to cannot be spent by it any more. */
  predicate Unspendable(grants: seq<Grant>, e: Hold, now: int)
  {
    var g := FindGrantId(grants, e.grantId);
    || g.None?
    || (var k := grants[g.value];
        || k.token != e.token || k.status != Issued || k.expiresAt < now || k.useCount >= k.maxUses || k.maxUses != 1)
  }

  /** A sweep lapses exactly the authorised exceptions whose grant is missing, past its time, spent, or
      not single-use. */
  lemma SweepEffect(db: Db, now: int, i: nat)
    requires i < |db.holds|
    ensures var e, f := db.holds[i], Sweep(db, now).holds[i];
            f == if e.status == HoldAuthorized && Unspendable(db.grants, e, now) then e.(status := HoldExpired) else e
  {
    SweepAtOnce(db, now, i);
  }

  /** Some authorised exception among the first `n` is bound to the grant. */
  ghost predicate Claimed(holds: seq<Hold>, n: nat, g: Grant)
    requires n <= |holds|
  {
    exists i :: 0 <= i < n && holds[i].status == HoldAuthorized && holds[i].grantId == g.id && holds[i].token == g.token
  }

  ghost predicate DistinctGrants(grants: seq<Grant>)
  {
    forall i, j :: 0 <= i < j < |grants| ==> grants[i].id != grants[j].id
  }

  function Dated(g: Grant, expires: bool): Grant
  {
    if expires then g.(status := Expired) else g
  }

  lemma {:induction false} SweepToGrant(db: Db, n: nat, now: int, g: nat)
    requires n <= |db.holds| && g < |db.grants| && DistinctGrants(db.grants)
    ensures var k, d := db.grants[g], SweepTo(db, n, now);
            |d.grants| == |db.grants|
            && d.grants[g] == Dated(k, k.status == Issued && k.expiresAt < now && Claimed(db.holds, n, k))
  {
    if n > 0 {
      SweepToGrant(db, n - 1, now, g);
      SweepToRow(db, n - 1, now, n - 1);
      SweepToFinds(db, n - 1, now, db.holds[n - 1].grantId);
      SweepRowGrant(db, n, now, g);
    }
  }

  lemma {:induction false} SweepToFinds(db: Db, n: nat, now: int, id: Id)
    requires n <= |db.holds|
    ensures FindGrantId(SweepTo(db, n, now).grants, id) == FindGrantId(db.grants, id)
  {
    if n > 0 {
      SweepToFinds(db, n - 1, now, id);
      var d := SweepTo(db, n - 1, now);
      var g := FindGrantId(d.grants, d.holds[n - 1].grantId);
      if g.Some? {
        FindGrantIdUpdate(d.grants, g.value, Expired, id);
      }
    }
  }

  lemma {:induction false} SweepToKeepsExpired(db: Db, n: nat, now: int, g: nat)
    requires n <= |db.holds| && g < |db.grants| && db.grants[g].status == Expired
    ensures |SweepTo(db, n, now).grants| == |db.grants| && SweepTo(db, n, now).grants[g] == db.grants[g]
  {
    if n > 0 {
      SweepToKeepsExpired(db, n - 1, now, g);
    }
  }

  lemma SweepRowGrant(db: Db, n: nat, now: int, g: nat)
    requires 0 < n <= |db.holds| && g < |db.grants| && DistinctGrants(db.grants)
    requires var k, d := db.grants[g], SweepTo(db, n - 1, now);
             && |d.grants| == |db.grants| && d.holds[n - 1] == db.holds[n - 1]
             && d.grants[g] == Dated(k, k.status == Issued && k.expiresAt < now && Claimed(db.holds, n - 1, k))
             && FindGrantId(d.grants, db.holds[n - 1].grantId) == FindGrantId(db.grants, db.holds[n - 1].grantId)
    ensures var k, d := db.grants[g], SweepTo(db, n, now);
            |d.grants| == |db.grants|
            && d.grants[g] == Dated(k, k.status == Issued && k.expiresAt < now && Claimed(db.holds, n, k))
  {
    var k, e, d := db.grants[g], db.holds[n - 1], SweepTo(db, n - 1, now);
    var mine := e.status == HoldAuthorized && e.grantId == k.id && e.token == k.token;
    assert Claimed(db.holds, n, k) <==> Claimed(db.holds, n - 1, k) || mine;
    assert e.grantId == k.id ==> FindGrantId(db.grants, e.grantId) == Some(g);
    assert e.grantId != k.id ==> FindGrantId(db.grants, e.grantId) != Some(g);
  }

  /** A sweep expires exactly the issued grants past their time that an authorised exception is bound
      to, and touches nothing else of a grant. */
  lemma SweptGrants(db: Db, now: int, g: nat)
    requires g < |db.grants| && DistinctGrants(db.grants)
    ensures var k, d := db.grants[g], Sweep(db, now);
            && |d.grants| == |db.grants|
            && d.grants[g] == if k.status == Issued && k.expiresAt < now && Claimed(db.holds, |db.holds|, k)
                              then k.(status := Expired) else k
  {
    SweepToGrant(db, |db.holds|, now, g);
  }

  /** A run that is reserved or in flight and started more than 60 seconds ago times out, and its
      reservation becomes unknown cost; no other run changes. */
  lemma RecoveryEffect(db: Db, sweepAt: int, now: int, i: nat)
    requires i < |db.runs|
    ensures var r, d := db.runs[i], Recover(db, sweepAt, now);
            && |d.runs| == |db.runs|
            && d.runs[i] == if (r.status == Reserved || r.status == InFlight) && now - r.startedAt > 60000
                            then Run(r.id, r.key, r.token, r.fingerprint, TimedOut, r.startedAt, 0.0, r.observed, r.reserved)
                            else r
  {
    RecoverAtOnce(db, sweepAt, now, i);
  }

  // ---- reserveAdmission ----

  /** An admitted request reserves its own estimate, when that is positive, and 0.05 otherwise: the reply,
      the new run and the aggregate row agree on it, and the run records the request. */
  lemma AdmissionEffect(h: Host, db: Db, q: Request, t: Clock, newId: Id)
    requires Reserve(h, db, q, t, newId).1.Admitted?
    ensures var d := Recover(db, t.sweep, t.deadline);
            var (after, reply) := Reserve(h, db, q, t, newId);
            var amount := if q.estimate.Some? && q.estimate.value > 0.0 then q.estimate.value else 0.05;
            && reply.id == newId && reply.cost == amount
            && |after.runs| == |d.runs| + 1 && d.runs <= after.runs
            && (var r := after.runs[|d.runs|];
                && r.id == newId && r.token == Trim(q.token) && r.status == Reserved && r.startedAt == t.now
                && r.key == (if q.key.None? || q.key.value == [] then None else Some(Trim(q.key.value)))
                && r.fingerprint == h.sha(Canonical(Obj([Entry(Lit("target"), Str(Trim(q.target))),
                                                         Entry(Lit("source_commit_id"), Str(Trim(q.commit)))])))
                && r.reserved == amount && r.observed == 0.0 && r.unknown == 0.0)
            && after.costs.reserved == d.costs.reserved + amount
            && after.costs.observed == d.costs.observed && after.costs.unknown == d.costs.unknown
            && after.costs.metered == d.costs.metered
  {
    LedgerResults.AdmittedIff(h, db, q, t, newId);
    var d := Recover(db, t.sweep, t.deadline);
    LedgerResults.GrantAdmittedIff(d, q, Fingerprint(h, q), t, newId, FindGrant(d.grants, Trim(q.token)).value);
  }

  /** Row `i` is the first authorised exception of the token. */
  ghost predicate FirstHold(holds: seq<Hold>, token: JsString, i: nat)
    requires i < |holds|
  {
    && holds[i].token == token && holds[i].status == HoldAuthorized
    && forall j :: 0 <= j < i ==> !(holds[j].token == token && holds[j].status == HoldAuthorized)
  }

  /** One use of the grant with the token is spent, and the exception of that token is consumed for the
      run. */
  ghost predicate Spends(s: Db, after: Db, g: nat, token: JsString, run: Id)
  {
    && g < |s.grants| && s.grants[g].token == token
    && after.grants == s.grants[g := s.grants[g].(useCount := s.grants[g].useCount + 1, status := Consumed)]
    && |after.holds| == |s.holds|
    && forall i :: 0 <= i < |s.holds| ==>
         after.holds[i] == if FirstHold(s.holds, token, i)
                           then s.holds[i].(status := HoldConsumed, run := Some(run)) else s.holds[i]
  }

  /** An admission spends one use of the grant with the request's token, and consumes for the new run the
      exception of that token that the sweep left authorised. */
  lemma AdmissionSpends(h: Host, db: Db, q: Request, t: Clock, newId: Id)
    requires Reserve(h, db, q, t, newId).1.Admitted?
    ensures var d := Recover(db, t.sweep, t.deadline);
            var g := FindGrant(d.grants, Trim(q.token));
            g.Some? && Spends(Sweep(d, t.lookup), Reserve(h, db, q, t, newId).0, g.value, Trim(q.token), newId)
  {
    var d := Recover(db, t.sweep, t.deadline);
    ReserveSplits(h, db, q, t, newId);
    TrimIdempotent(q.token);
    GrantSpends(d, q, Fingerprint(h, q), t, newId, FindGrant(d.grants, Trim(q.token)).value);
  }

  lemma GrantSpends(d: Db, q: Request, fingerprint: JsString, t: Clock, newId: Id, g: nat)
    requires g < |d.grants| && Trim(d.grants[g].token) == d.grants[g].token
    requires ReserveWithGrant(d, q, fingerprint, t, newId, g).1.Admitted?
    ensures Spends(Sweep(d, t.lookup), ReserveWithGrant(d, q, fingerprint, t, newId, g).0, g, d.grants[g].token, newId)
  {
    SweepLength(d, t.lookup);
    SweepKeepsUses(d, |d.holds|, t.lookup, g);
    HoldIsFirst(Sweep(d, t.lookup).holds, d.grants[g].token);
  }

  lemma {:induction false} HoldIsFirst(holds: seq<Hold>, token: JsString)
    ensures forall i :: 0 <= i < |holds| ==> (FirstHold(holds, token, i) <==> FindHold(holds, token) == Some(i))
  {
    if holds != [] {
      var rest := holds[1..];
      HoldIsFirst(rest, token);
      assert forall i :: 0 <= i < |rest| ==> rest[i] == holds[i + 1];
    }
  }

  // What can end a reservation before it is admitted, in the order in which it is looked at: the gates, the
  // run of the request's key, and the grant.

  function GateOutcomes(h: Host, d: Db, q: Request): seq<(bool, Reply)>
  {
    [(d.config.killSwitch, Refused(KillSwitch)),
     (!d.config.liveGate, Refused(GateClosed)),
     (!q.live, Refused(NotLive)),
     (q.target == [] || Trim(q.target) != d.config.target, Refused(InvalidTarget)),
     (q.commit == [] || h.lower(Trim(q.commit)) != h.lower(d.config.commit), Refused(InvalidSource)),
     (Blank(q.token), Refused(MissingGrant)),
     (FindGrant(d.grants, Trim(q.token)).None?, Refused(InvalidGrant))]
  }

  function KeyOutcomes(d: Db, q: Request, fingerprint: JsString): seq<(bool, Reply)>
  {
    var found := if q.key.Some? && !Blank(q.key.value) then FindKey(d.runs, Trim(q.key.value)) else None;
    if found.None? then []
    else
      var r := d.runs[found.value];
      [(r.token != Trim(q.token), Refused(KeyContextMismatch)),
       (r.fingerprint != fingerprint, Refused(KeyConflict)),
       (true, Replay(r.id, r.status))]
  }

  function GrantOutcomes(d: Db, q: Request, now: int, newId: Id): seq<(bool, Reply)>
  {
    var g := FindGrant(d.grants, Trim(q.token));
    if g.None? then []
    else
      var k := d.grants[g.value];
      var stored := if q.key.Some? && q.key.value != [] then FindKey(d.runs, Trim(q.key.value)) else None;
      [(k.status == Expired || k.expiresAt < now, Refused(ExpiredGrant)),
       (k.status == Consumed || k.useCount >= k.maxUses, Refused(GrantAlreadyUsed)),
       (exists i :: 0 <= i < |d.runs| && (d.runs[i].status == Reserved || d.runs[i].status == InFlight),
        Refused(ConcurrencyLimit)),
       (FindRun(d.runs, newId).Some? || stored.Some?, Refused(ConstraintViolation))]
  }

  function FirstOf(outcomes: seq<(bool, Reply)>, otherwise: Reply): Reply
  {
    if outcomes == [] then otherwise
    else if outcomes[0].0 then outcomes[0].1
    else FirstOf(outcomes[1..], otherwise)
  }

  /** The reply is the first outcome that applies to the recovered tables, and an admission when none
      does. */
  lemma ReplyIsFirst(h: Host, db: Db, q: Request, t: Clock, newId: Id)
    ensures var d := Recover(db, t.sweep, t.deadline);
            var admitted := Admitted(newId, if q.estimate.Some? && q.estimate.value > 0.0 then q.estimate.value else 0.05);
            Reserve(h, db, q, t, newId).1
            == FirstOf(GateOutcomes(h, d, q),
                       FirstOf(KeyOutcomes(d, q, Fingerprint(h, q)), FirstOf(GrantOutcomes(d, q, t.now, newId), admitted)))
  {
    var d := Recover(db, t.sweep, t.deadline);
    var fingerprint, last := Fingerprint(h, q), Admitted(newId, Estimate(q));
    var later := FirstOf(GrantOutcomes(d, q, t.now, newId), last);
    var g := FindGrant(d.grants, Trim(q.token));
    GateDecides(h, d, q, FirstOf(KeyOutcomes(d, q, fingerprint), later));
    if g.Some? {
      KeyRowDecides(d, q, fingerprint, g.value, later);
      GrantDecides(d, q, fingerprint, t, newId, g.value);
    }
  }

  lemma {:induction false} FirstTrue(outcomes: seq<(bool, Reply)>, otherwise: Reply, n: nat)
    requires n <= |outcomes| && forall i :: 0 <= i < n ==> !outcomes[i].0
    ensures n < |outcomes| && outcomes[n].0 ==> FirstOf(outcomes, otherwise) == outcomes[n].1
    ensures n == |outcomes| ==> FirstOf(outcomes, otherwise) == otherwise
  {
    if n > 0 {
      FirstTrue(outcomes[1..], otherwise, n - 1);
    }
  }

  lemma GateDecides(h: Host, d: Db, q: Request, later: Reply)
    ensures FirstOf(GateOutcomes(h, d, q), later)
            == if Gate(h, d.config, q).Some? then Refused(Gate(h, d.config, q).value)
               else if FindGrant(d.grants, Trim(q.token)).None? then Refused(InvalidGrant)
               else later
  {
    var outcomes := GateOutcomes(h, d, q);
    var n := match Gate(h, d.config, q)
      case None => if FindGrant(d.grants, Trim(q.token)).None? then 6 else 7
      case Some(why) =>
        (match why
         case KillSwitch => 0
         case GateClosed => 1
         case NotLive => 2
         case InvalidTarget => 3
         case InvalidSource => 4
         case _ => 5);
    FirstTrue(outcomes, later, n);
  }

  lemma KeyRowDecides(d: Db, q: Request, fingerprint: JsString, g: nat, later: Reply)
    requires FindGrant(d.grants, Trim(q.token)) == Some(g)
    ensures var found := if LookupKey(q).Some? then FindKey(d.runs, LookupKey(q).value) else None;
            FirstOf(KeyOutcomes(d, q, fingerprint), later)
            == if found.Some? then ReplayReply(d.runs[found.value], d.grants[g], fingerprint) else later
  {
    var outcomes := KeyOutcomes(d, q, fingerprint);
    if outcomes != [] {
      FirstTrue(outcomes, later, if outcomes[0].0 then 0 else if outcomes[1].0 then 1 else 2);
    }
  }

  lemma GrantDecides(d: Db, q: Request, fingerprint: JsString, t: Clock, newId: Id, g: nat)
    requires FindGrant(d.grants, Trim(q.token)) == Some(g)
    ensures FirstOf(GrantOutcomes(d, q, t.now, newId), Admitted(newId, Estimate(q)))
            == ReserveWithGrant(d, q, fingerprint, t, newId, g).1
  {
    var outcomes := GrantOutcomes(d, q, t.now, newId);
    SweepLength(d, t.lookup);
    assert outcomes[2].0 <==> AnyActive(d.runs);
    FirstTrue(outcomes, Admitted(newId, Estimate(q)),
              if outcomes[0].0 then 0 else if outcomes[1].0 then 1 else if outcomes[2].0 then 2
              else if outcomes[3].0 then 3 else 4);
  }

  /** A request refused for an expired grant leaves that grant marked as expired. */
  lemma ExpiredIsMarked(h: Host, db: Db, q: Request, t: Clock, newId: Id)
    requires Reserve(h, db, q, t, newId).1 == Refused(ExpiredGrant)
    ensures var g := FindGrant(Recover(db, t.sweep, t.deadline).grants, Trim(q.token));
            var after := Reserve(h, db, q, t, newId).0;
            g.Some? && g.value < |after.grants| && after.grants[g.value].status == Expired
  {
    var d := Recover(db, t.sweep, t.deadline);
    var g := FindGrant(d.grants, Trim(q.token)).value;
    var marked := d.(grants := d.grants[g := d.grants[g].(status := Expired)]);
    SweepToKeepsExpired(marked, |marked.holds|, t.now, g);
    GrantRefuses(h, db, q, t, newId);
    ExpiryMarks(d, q, Fingerprint(h, q), t, newId, g);
  }

  lemma GrantRefuses(h: Host, db: Db, q: Request, t: Clock, newId: Id)
    requires Reserve(h, db, q, t, newId).1 == Refused(ExpiredGrant)
    ensures var d := Recover(db, t.sweep, t.deadline);
            var g := FindGrant(d.grants, Trim(q.token));
            g.Some? && Reserve(h, db, q, t, newId) == ReserveWithGrant(d, q, Fingerprint(h, q), t, newId, g.value)
  {
  }

  lemma ExpiryMarks(d: Db, q: Request, fingerprint: JsString, t: Clock, newId: Id, g: nat)
    requires g < |d.grants| && ReserveWithGrant(d, q, fingerprint, t, newId, g).1 == Refused(ExpiredGrant)
    ensures ReserveWithGrant(d, q, fingerprint, t, newId, g).0
            == Sweep(d.(grants := d.grants[g := d.grants[g].(status := Expired)]), t.now)
  {
  }

  // ---- markInFlight ----

  lemma MarkEffect(db: Db, id: Id)
    ensures var d := MarkInFlight(db, id);
            && d == db.(runs := d.runs) && |d.runs| == |db.runs|
            && forall i :: 0 <= i < |db.runs| ==>
                 d.runs[i] == if FindRun(db.runs, id) == Some(i) && db.runs[i].status == Reserved
                              then db.runs[i].(status := InFlight) else db.runs[i]
  {
  }

  // ---- recordExecutionSuccess and recordExecutionFailure ----

  /** Row `i` alone, and the aggregate row, differ. */
  ghost predicate OnlyRun(db: Db, d: Db, i: nat)
  {
    && d.grants == db.grants && d.holds == db.holds && d.reconciliations == db.reconciliations && d.config == db.config
    && |d.runs| == |db.runs| && forall j :: 0 <= j < |db.runs| && j != i ==> d.runs[j] == db.runs[j]
  }

  /** What a record moves: the run loses its reservation and shows `unknown` and `spent`; the aggregate
      row gives back the reservation and gains both. */
  ghost predicate Moved(db: Db, d: Db, i: nat, status: RunStatus, unknown: real, spent: real)
    requires i < |db.runs|
  {
    var r := db.runs[i];
    && OnlyRun(db, d, i)
    && d.runs[i] == Run(r.id, r.key, r.token, r.fingerprint, status, r.startedAt, 0.0, spent, unknown)
    && d.costs.reserved == (if db.costs.reserved < r.reserved then 0.0 else db.costs.reserved - r.reserved)
    && d.costs.unknown == db.costs.unknown + unknown && d.costs.observed == db.costs.observed + spent
    && d.costs.metered == d.costs.observed + d.costs.unknown
  }

  /** A failure with a reported cost shows that cost and no unknown one. Without a cost, the reservation
      becomes unknown when the outcome is ambiguous or the provider may have been reached, and is let go
      otherwise. The status tells the three apart. */
  lemma FailureEffect(db: Db, id: Id, observed: Option<real>, ambiguous: bool, dispatched: bool)
    ensures var i := FindRun(db.runs, id);
            var (d, recorded) := RecordFailure(db, id, observed, ambiguous, dispatched);
            && (recorded <==> i.Some?) && (!recorded ==> d == db)
            && (recorded && observed.Some? && observed.value >= 0.0 ==>
                  Moved(db, d, i.value, if ambiguous then UnknownOutcome else Failed, 0.0, observed.value))
            && (recorded && !(observed.Some? && observed.value >= 0.0) && ambiguous ==>
                  Moved(db, d, i.value, UnknownOutcome, db.runs[i.value].reserved, 0.0))
            && (recorded && !(observed.Some? && observed.value >= 0.0) && !ambiguous && dispatched ==>
                  Moved(db, d, i.value, FailedUnreconciledCost, db.runs[i.value].reserved, 0.0))
            && (recorded && !(observed.Some? && observed.value >= 0.0) && !ambiguous && !dispatched ==>
                  Moved(db, d, i.value, Failed, 0.0, 0.0))
            && d.receipts == db.receipts
  {
  }

  /** In a reachable state, an active run's whole reservation, and so its whole estimate, moves to unknown
      in run and aggregate exactly when no cost is reported and the failure is ambiguous or may have
      been dispatched. */
  lemma FailureKeepsIff(h: Host, config: Config, es: seq<Event>, i: nat, observed: Option<real>, ambiguous: bool,
                        dispatched: bool)
    requires i < |Reach(h, config, es).db.runs| && Active(Reach(h, config, es).db.runs[i])
    ensures var db := Reach(h, config, es).db;
            var keeps := !(observed.Some? && observed.value >= 0.0) && (ambiguous || dispatched);
            Keeps(db, Apply(h, db, EvFailure(db.runs[i].id, observed, ambiguous, dispatched)), i, keeps)
  {
    ReachInv(h, config, es);
    ActiveFailure(Reach(h, config, es), i, observed, ambiguous, dispatched);
  }

  /** The reservation of run `i`, which is not nothing, is gone, and in run and aggregate it is unknown
      cost exactly when it is kept. */
  predicate Keeps(db: Db, d: Db, i: nat, keeps: bool)
    requires i < |db.runs|
  {
    var amount := db.runs[i].reserved;
    && amount > 0.0 && |d.runs| == |db.runs|
    && d.runs[i].reserved == 0.0 && d.costs.reserved == db.costs.reserved - amount
    && d.runs[i].unknown == (if keeps then amount else 0.0)
    && d.costs.unknown == db.costs.unknown + (if keeps then amount else 0.0)
  }

  lemma ActiveFailure(w: World, i: nat, observed: Option<real>, ambiguous: bool, dispatched: bool)
    requires Inv(w) && i < |w.db.runs| && Active(w.db.runs[i])
    ensures Keeps(w.db, RecordFailure(w.db, w.db.runs[i].id, observed, ambiguous, dispatched).0, i,
                  !(observed.Some? && observed.value >= 0.0) && (ambiguous || dispatched))
  {
    assert RunOk(w.db.runs[i], w.books);
    assert FindRun(w.db.runs, w.db.runs[i].id) == Some(i);
    ColumnsCover(w, i);
    FailureMoves(w.db, w.db.runs[i].id, observed, ambiguous, dispatched);
  }

  lemma FailureMoves(db: Db, id: Id, observed: Option<real>, ambiguous: bool, dispatched: bool)
    requires FindRun(db.runs, id).Some?
    ensures var i := FindRun(db.runs, id).value;
            var d := RecordFailure(db, id, observed, ambiguous, dispatched).0;
            var keeps := !(observed.Some? && observed.value >= 0.0) && (ambiguous || dispatched);
            var unknown := if keeps then db.runs[i].reserved else 0.0;
            && i < |d.runs| && d.runs[i].unknown == unknown && d.costs.unknown == db.costs.unknown + unknown
            && d.runs[i].reserved == 0.0
            && d.costs.reserved == (if db.costs.reserved < db.runs[i].reserved then 0.0
                                    else db.costs.reserved - db.runs[i].reserved)
  {
    FailureEffect(db, id, observed, ambiguous, dispatched);
  }

  /** A success of a known run with a storable receipt completes it: a reported cost is shown as it was
      reported, and without one the reservation becomes unknown. Its receipt is filed under the run. */
  lemma SuccessEffect(h: Host, db: Db, id: Id, observed: Option<real>, receipt: Json, allow: bool, secret: bool)
    ensures var i := FindRun(db.runs, id);
            var (d, recorded) := RecordSuccess(h, db, id, observed, receipt, allow, secret);
            && (recorded <==> i.Some? && Storable(h, receipt, allow, secret)) && (!recorded ==> d == db)
            && (recorded && observed.Some? && observed.value >= 0.0 ==>
                  Moved(db, d, i.value, Completed, 0.0, observed.value))
            && (recorded && !(observed.Some? && observed.value >= 0.0) ==>
                  Moved(db, d, i.value, Completed, db.runs[i.value].reserved, 0.0))
            && (recorded ==> Filed(db, d, id, receipt))
  {
  }

  // ---- storeReceipt ----

  /** The receipt is filed under the run with its stated digest and its canonical text. */
  ghost predicate Filed(db: Db, d: Db, id: Id, receipt: Json)
  {
    && receipt.Obj? && var stated := Get(receipt.fields, Lit("receipt_digest"));
    && stated.Some? && stated.value.Str?
    && d.receipts == db.receipts[id := StoredReceipt(stated.value.s, Canonical(receipt))]
  }

  /** A property that is a text other than white space. */
  predicate HasText(receipt: Json, name: string)
  {
    && receipt.Obj? && Lit(name) in Keys(receipt.fields)
    && Get(receipt.fields, Lit(name)).value.Str? && !Blank(Get(receipt.fields, Lit(name)).value.s)
  }

  /** Only a caller that is allowed to may store a receipt of live provenance. */
  predicate Permitted(h: Host, receipt: Json, allow: bool)
    requires HasText(receipt, "provenance")
  {
    var provenance := h.upper(Trim(Get(receipt.fields, Lit("provenance")).value.s));
    (provenance == Lit("LIVE_NEBIUS") || provenance == Lit("RECORDED_LIVE")) ==> allow
  }

  /** Its stated digest has 64 units and is, in either case of letters, the hash of the canonical text of
      its normalised payload. */
  predicate Authentic(h: Host, receipt: Json)
  {
    && receipt.Obj? && Lit("receipt_digest") in Keys(receipt.fields)
    && var stated := Get(receipt.fields, Lit("receipt_digest")).value;
    && stated.Str? && |stated.s| == 64
    && var payload := Payload(h, receipt.fields);
    && payload.Some? && h.lower(h.sha(Canonical(Obj(payload.value)))) == h.lower(stated.s)
  }

  /** Reading a stored row parses its text and checks the receipt in it again; the digest is the row's. */
  lemma ReadIff(h: Host, row: StoredReceipt)
    ensures var parsed := JsonParser.Parse(row.json);
            && (Read(h, row).Some? <==> parsed.Some?)
            && (parsed.Some? ==>
                  && Read(h, row).value.receipt == parsed.value && Read(h, row).value.digest == row.digest
                  && (Read(h, row).value.verified <==> Authentic(h, parsed.value)))
  {
  }

  /** A receipt is stored exactly when it names verdict, provenance and source commit, its provenance is
      permitted, it is authentic, and it holds no secret. */
  lemma StorableIff(h: Host, receipt: Json, allow: bool, secret: bool)
    ensures Storable(h, receipt, allow, secret)
            <==> && HasText(receipt, "overall_verdict") && HasText(receipt, "provenance")
                 && HasText(receipt, "source_commit_id")
                 && Permitted(h, receipt, allow) && Authentic(h, receipt) && !secret
  {
  }

  lemma StoreEffect(h: Host, db: Db, id: Id, receipt: Json, allow: bool, secret: bool)
    ensures var (d, stored) := StoreReceipt(h, db, id, receipt, allow, secret);
            && (stored <==> Storable(h, receipt, allow, secret)) && (!stored ==> d == db)
            && (stored ==> Filed(db, d, id, receipt) && d == db.(receipts := d.receipts))
  {
  }

  /** The event files this row under the run, free of secrets and of permitted provenance. */
  ghost predicate Files(h: Host, e: Event, id: Id, row: StoredReceipt)
  {
    (e.EvSuccess? || e.EvStore?) && e.id == id && !e.secret
    && HasText(e.receipt, "provenance") && Permitted(h, e.receipt, e.allow) && Authentic(h, e.receipt)
    && row == StoredReceipt(Get(e.receipt.fields, Lit("receipt_digest")).value.s, Canonical(e.receipt))
  }

  lemma EventFiles(h: Host, db: Db, e: Event, id: Id)
    requires id in Apply(h, db, e).receipts
    ensures Files(h, e, id, Apply(h, db, e).receipts[id])
            || (id in db.receipts && db.receipts[id] == Apply(h, db, e).receipts[id])
  {
    match e
    case EvSuccess(run, observed, receipt, allow, secret) =>
      SuccessEffect(h, db, run, observed, receipt, allow, secret);
      StorableIff(h, receipt, allow, secret);
    case EvStore(run, receipt, allow, secret) =>
      StorableIff(h, receipt, allow, secret);
    case _ => LedgerReceipts.OthersKeepReceipts(h, db, e);
  }

  /** After any history, a stored receipt was filed by an event of it that found no secret in it, was
      permitted its provenance, and checked its digest. */
  lemma {:induction false} StoredWasChecked(h: Host, config: Config, es: seq<Event>, id: Id)
    requires id in ApplyAll(h, Empty(config), es).receipts
    ensures exists k :: 0 <= k < |es| && Files(h, es[k], id, ApplyAll(h, Empty(config), es).receipts[id])
  {
    var n := |es| - 1;
    var before := ApplyAll(h, Empty(config), es[..n]);
    EventFiles(h, before, es[n], id);
    if !Files(h, es[n], id, ApplyAll(h, Empty(config), es).receipts[id]) {
      StoredWasChecked(h, config, es[..n], id);
    }
  }

  // ---- reconcileUnknownCost ----

  /** A complete and consistent record: who, what was observed, on what evidence, when, and a cost that
      agrees with the decision. */
  predicate Complete(a: Attestation, now: int)
  {
    && !Blank(a.runId) && !Blank(a.operator) && a.operatorAttested
    && |Trim(a.observation)| >= 3 && |Trim(a.evidence)| >= 3
    && a.verifiedAt.Some? && a.verifiedAt.value > 0 && a.verifiedAt.value - now <= 86400000
    && a.observed.Some?
    && ((a.decision == NoProviderCharge && a.observed.value == 0.0)
        || (a.decision == ProviderChargeObserved && a.observed.value > 0.0))
  }

  /** The whole unknown cost unless the record names an amount, which must be part of it; never less than
      the cost the record attests. */
  predicate Releases(a: Attestation, unknown: real, amount: real)
    requires a.observed.Some?
  {
    && (a.release.None? ==> amount == unknown) && (a.release.Some? ==> a.release.value == Some(amount))
    && 0.0 < amount <= unknown && a.observed.value <= amount
  }

  /** A reconciliation is accepted exactly for a complete record of a known run, with an amount it may
      release; then that amount leaves the unknown cost of run and aggregate, and is written down. */
  lemma ReconcileEffect(db: Db, a: Attestation, now: int)
    ensures var i := FindRun(db.runs, Trim(a.runId));
            var (d, accepted) := Reconcile(db, a, now);
            && (accepted <==> Complete(a, now) && i.Some? && exists amount :: Releases(a, db.runs[i.value].unknown, amount))
            && (!accepted ==> d == db)
            && (accepted ==>
                  var r := db.runs[i.value];
                  var amount := if a.release.None? then r.unknown else a.release.value.value;
                  && Releases(a, r.unknown, amount)
                  && d.grants == db.grants && d.holds == db.holds && d.receipts == db.receipts
                  && d.runs == db.runs[i.value := r.(unknown := r.unknown - amount)]
                  && d.costs.reserved == db.costs.reserved && d.costs.observed == db.costs.observed
                  && d.costs.unknown == (if db.costs.unknown < amount then 0.0 else db.costs.unknown - amount)
                  && d.costs.metered == d.costs.observed + d.costs.unknown
                  && d.reconciliations
                     == db.reconciliations + [Reconciliation(r.id, amount, r.unknown - amount, a.observed.value)])
  {
    var i := FindRun(db.runs, Trim(a.runId));
    if Reconcile(db, a, now).1 {
      assert Releases(a, db.runs[i.value].unknown, ReleaseAmount(a, db.runs[i.value]).value);
    }
  }

  // ---- authorizeCostHoldException ----

  /** The grant is issued, unexpired, unused and single-use, has a positive cap, and its balance less
      cap and exposure keeps the floor; an absent cap or balance counts as nothing. */
  predicate Affords(g: Grant, exposure: real, floor: Option<real>, now: int)
  {
    && g.status == Issued && g.expiresAt >= now && g.useCount < g.maxUses && g.maxUses == 1
    && exposure > 0.0 && g.costCap.Some? && g.costCap.value > 0.0
    && (floor.Some? ==>
          (if g.balance.Some? then g.balance.value else 0.0) - exposure - g.costCap.value >= floor.value)
  }

  /** An exception is authorised exactly for a named operator and reason and a grant that affords the
      present exposure, when none is authorised and the token never had one; it records the figures it
      was authorised on. */
  lemma AuthorizeEffect(db: Db, token: JsString, operator: JsString, reason: JsString, now: int, newId: Id)
    ensures var (d, authorized) := Authorize(db, token, operator, reason, now, newId);
            var s := Sweep(db, now);
            var g := FindGrant(s.grants, Trim(token));
            && (authorized <==>
                  && !Blank(token) && !Blank(operator) && |Trim(reason)| >= 3
                  && g.Some? && Affords(s.grants[g.value], db.costs.unknown, db.config.floor, now)
                  && forall i :: 0 <= i < |s.holds| ==>
                       s.holds[i].status != HoldAuthorized && s.holds[i].token != Trim(token) && s.holds[i].id != newId)
            && (!authorized ==> d == db || d == s)
            && (authorized ==>
                  var k := s.grants[g.value];
                  d == s.(holds := s.holds + [Hold(newId, k.id, Trim(token), HoldAuthorized, None, db.costs.unknown,
                                                   k.costCap.value, db.config.floor,
                                                   if k.balance.Some? then k.balance.value else 0.0)]))
  {
    SweepLength(db, now);
  }
}
