/** The two loops over rows: each decides as if it judged all rows at once, and running it twice
    changes nothing more. */
module LedgerSweeps {
  import opened Options
  import opened LedgerModel

  /** Row `i` after a sweep, judged on the tables as they were before it. */
  function Swept(db: Db, i: nat, now: int): Hold
    requires i < |db.holds|
  {
    var e := db.holds[i];
    if e.status == HoldAuthorized && StaleReason(db.grants, e, now).Some? then e.(status := HoldExpired) else e
  }

  /** Expiring the grant of a lapsed exception does not change which exceptions are stale. */
  lemma StaleStable(grants: seq<Grant>, e: Hold, f: Hold, now: int)
    ensures StaleReason(ExpireBoundGrant(grants, e, now), f, now).Some? <==> StaleReason(grants, f, now).Some?
  {
    var after := ExpireBoundGrant(grants, e, now);
    if after != grants {
      FindGrantIdUpdate(grants, FindGrantId(grants, e.grantId).value, Expired, f.grantId);
    }
  }

  lemma {:induction false} FindGrantIdUpdate(grants: seq<Grant>, g: nat, status: GrantStatus, id: Id)
    requires g < |grants|
    ensures FindGrantId(grants[g := grants[g].(status := status)], id) == FindGrantId(grants, id)
  {
    if g > 0 {
      FindGrantIdUpdate(grants[1..], g - 1, status, id);
      assert grants[g := grants[g].(status := status)][1..] == grants[1..][g - 1 := grants[1..][g - 1].(status := status)];
    }
  }

  lemma {:induction false} SweepToJudges(db: Db, n: nat, now: int, f: Hold)
    requires n <= |db.holds|
    ensures StaleReason(SweepTo(db, n, now).grants, f, now).Some? <==> StaleReason(db.grants, f, now).Some?
  {
    if n > 0 {
      SweepToJudges(db, n - 1, now, f);
      var d := SweepTo(db, n - 1, now);
      StaleStable(d.grants, d.holds[n - 1], f, now);
    }
  }

  lemma {:induction false} SweepToRow(db: Db, n: nat, now: int, i: nat)
    requires n <= |db.holds| && i < |db.holds|
    ensures SweepTo(db, n, now).holds[i] == if i < n then Swept(db, i, now) else db.holds[i]
  {
    if n > 0 {
      SweepToRow(db, n - 1, now, i);
      SweepToJudges(db, n - 1, now, db.holds[i]);
    }
  }

  /** A sweep lapses exactly the authorised exceptions that were stale before it began. */
  lemma SweepAtOnce(db: Db, now: int, i: nat)
    requires i < |db.holds|
    ensures Sweep(db, now).holds[i] == Swept(db, i, now)
  {
    SweepToRow(db, |db.holds|, now, i);
  }

  lemma {:induction false} SweepToIdle(db: Db, n: nat, now: int)
    requires n <= |db.holds|
    requires forall i :: 0 <= i < |db.holds| ==> Swept(db, i, now) == db.holds[i]
    ensures SweepTo(db, n, now) == db
  {
    if n > 0 {
      SweepToIdle(db, n - 1, now);
      assert Swept(db, n - 1, now) == db.holds[n - 1];
    }
  }

  lemma SweepLeavesFresh(db: Db, now: int, i: nat)
    requires i < |db.holds|
    ensures Swept(Sweep(db, now), i, now) == Sweep(db, now).holds[i]
  {
    SweepAtOnce(db, now, i);
    SweepToJudges(db, |db.holds|, now, db.holds[i]);
  }

  lemma SweepTwice(db: Db, now: int)
    ensures Sweep(Sweep(db, now), now) == Sweep(db, now)
  {
    var d := Sweep(db, now);
    forall i | 0 <= i < |d.holds| ensures Swept(d, i, now) == d.holds[i] {
      SweepLeavesFresh(db, now, i);
    }
    SweepToIdle(d, |d.holds|, now);
  }

  /** Row `i` after recovery. */
  function Recovered(r: Run, threshold: int): Run
  {
    if Orphan(r, threshold) then r.(status := TimedOut, reserved := 0.0, unknown := r.reserved) else r
  }

  lemma {:induction false} RecoverToRow(db: Db, n: nat, threshold: int, i: nat)
    requires n <= |db.runs| && i < |db.runs|
    ensures var d := RecoverTo(db, n, threshold);
            && d.runs[i] == (if i < n then Recovered(db.runs[i], threshold) else db.runs[i])
            && d.holds == db.holds && d.grants == db.grants
  {
    if n > 0 {
      RecoverToRow(db, n - 1, threshold, i);
    }
  }

  lemma {:induction false} RecoverToIdle(db: Db, n: nat, threshold: int)
    requires n <= |db.runs|
    requires forall i :: 0 <= i < |db.runs| ==> !Orphan(db.runs[i], threshold)
    ensures RecoverTo(db, n, threshold) == db
  {
    if n > 0 {
      RecoverToIdle(db, n - 1, threshold);
    }
  }

  /** Recovery closes exactly the active runs older than the deadline. */
  lemma RecoverAtOnce(db: Db, sweepAt: int, now: int, i: nat)
    requires i < |db.runs|
    ensures var d := Recover(db, sweepAt, now);
            |d.runs| == |db.runs| && d.runs[i] == Recovered(db.runs[i], now - DEADLINE_MS)
  {
    SweepLength(db, sweepAt);
    RecoverToRow(Sweep(db, sweepAt), |db.runs|, now - DEADLINE_MS, i);
  }

  /** A run that does not stand in the way of an admission whose recovery uses this threshold. */
  predicate Lapsed(r: Run, threshold: int)
  {
    !Active(r) || r.startedAt < threshold
  }

  /** After recovery no run is active exactly when each was finished or past the deadline before it. */
  lemma IdleAfterRecovery(db: Db, sweepAt: int, now: int)
    ensures !AnyActive(Recover(db, sweepAt, now).runs)
            <==> forall i :: 0 <= i < |db.runs| ==> Lapsed(db.runs[i], now - DEADLINE_MS)
  {
    var d := Recover(db, sweepAt, now);
    forall i | 0 <= i < |db.runs|
      ensures |d.runs| == |db.runs| && (Active(d.runs[i]) <==> !Lapsed(db.runs[i], now - DEADLINE_MS))
    {
      RecoverAtOnce(db, sweepAt, now, i);
    }
    SweepLength(db, sweepAt);
  }

  lemma {:induction false} RecoverToRest(db: Db, n: nat, threshold: int)
    requires n <= |db.runs|
    ensures var d := RecoverTo(db, n, threshold); d.holds == db.holds && d.grants == db.grants
  {
    if n > 0 {
      RecoverToRest(db, n - 1, threshold);
    }
  }

  /** Recovering twice at the same instant is recovering once. */
  lemma RecoverTwice(db: Db, sweepAt: int, now: int)
    ensures Recover(Recover(db, sweepAt, now), sweepAt, now) == Recover(db, sweepAt, now)
  {
    var s, d := Sweep(db, sweepAt), Recover(db, sweepAt, now);
    RecoverToRest(s, |s.runs|, now - DEADLINE_MS);
    forall i | 0 <= i < |d.holds| ensures Swept(d, i, sweepAt) == d.holds[i] {
      SweepLeavesFresh(db, sweepAt, i);
    }
    SweepToIdle(d, |d.holds|, sweepAt);
    forall i | 0 <= i < |d.runs| ensures !Orphan(d.runs[i], now - DEADLINE_MS) {
      RecoverToRow(s, |s.runs|, now - DEADLINE_MS, i);
    }
    RecoverToIdle(d, |d.runs|, now - DEADLINE_MS);
  }
}

/** A late record: the run is recovered after 60 seconds, and its outcome arrives afterwards. */
module LedgerLateRecord {
  import opened Options
  import opened JsText
  import opened LedgerModel
  import opened LedgerSums
  import opened LedgerChanges
  import opened LedgerHistory

  /** Issue a grant, spend it, recover a minute later, and then record the outcome with its cost. */
  function LateHistory(q: Request, grant: Id, run: Id, spent: real): seq<Event>
  {
    [EvIssue(grant, q.token, 3600, 1, 0, None, None), EvReserve(q, Clock(0, 0, 0, 0), run),
     EvRecover(61000, 61000), EvFailure(run, Some(spent), false, true)]
  }

  predicate FreshGrant(db: Db, config: Config, q: Request)
  {
    && |db.grants| == 1 && db.grants[0].token == q.token && db.grants[0].status == Issued
    && db.grants[0].expiresAt == 3600000 && db.grants[0].maxUses == 1 && db.grants[0].useCount == 0
    && db == Empty(config).(grants := db.grants)
  }

  lemma GrantAdmits(db: Db, config: Config, q: Request, fingerprint: JsString, run: Id)
    requires FreshGrant(db, config, q)
    ensures var (d, reply) := ReserveWithGrant(db, q, fingerprint, Clock(0, 0, 0, 0), run, 0);
            && d.runs == [NewRun(q, fingerprint, q.token, 0, run)]
            && d.costs == Costs(0.0 + Estimate(q), 0.0, 0.0, 0.0)
            && d.holds == []
  {
    assert Sweep(db, 0) == db;
    assert !AnyActive(db.runs);
  }

  lemma ReserveAdmits(h: Host, db: Db, config: Config, q: Request, run: Id)
    requires FreshGrant(db, config, q) && Gate(h, config, q).None? && Trim(q.token) == q.token
    ensures var d := Reserve(h, db, q, Clock(0, 0, 0, 0), run).0;
            && d.runs == [NewRun(q, Fingerprint(h, q), q.token, 0, run)]
            && d.costs == Costs(0.0 + Estimate(q), 0.0, 0.0, 0.0)
            && d.holds == []
  {
    assert Recover(db, 0, 0) == db;
    GrantAdmits(db, config, q, Fingerprint(h, q), run);
  }

  lemma RecoveryCloses(db: Db, r: Run, cost: real)
    requires db.runs == [r] && db.holds == [] && db.costs == Costs(cost, 0.0, 0.0, 0.0)
    requires r.status == Reserved && r.startedAt == 0 && r.reserved == cost
    ensures var d := Recover(db, 61000, 61000);
            && d.runs == [r.(status := TimedOut, reserved := 0.0, unknown := cost)]
            && d.costs == Costs(0.0, 0.0, cost, cost)
  {
    assert Sweep(db, 61000) == db;
    assert RecoverTo(db, 1, 1000) == RecoverRow(RecoverTo(db, 0, 1000), 0, 1000);
  }

  lemma RecordOverwrites(db: Db, r: Run, cost: real, spent: real)
    requires db.runs == [r] && r.reserved == 0.0 && db.costs == Costs(0.0, 0.0, cost, cost) && spent >= 0.0
    ensures var d := RecordFailure(db, r.id, Some(spent), false, true).0;
            d.costs.unknown == cost && Sum(d.runs, UnknownOf) == 0.0
  {
    var d := RecordFailure(db, r.id, Some(spent), false, true).0;
    assert FindRun(db.runs, r.id) == Some(0);
    assert |d.runs| == 1 && d.runs[0].unknown == 0.0;
    assert Sum(d.runs, UnknownOf) == Sum(d.runs[..0], UnknownOf) + UnknownOf(d.runs[0]);
  }

  lemma ObserveLast(h: Host, w: World, es: seq<Event>, e: Event)
    ensures ObserveAll(h, w, es + [e]) == Observe(h, ObserveAll(h, w, es), e)
  {
    assert (es + [e])[..|es|] == es;
  }

  lemma ObserveFour(h: Host, w: World, a: Event, b: Event, c: Event, d: Event)
    ensures ObserveAll(h, w, [a, b, c, d]).db == Apply(h, Apply(h, Apply(h, Apply(h, w.db, a), b), c), d)
  {
    assert [] + [a] == [a] && [a] + [b] == [a, b] && [a, b] + [c] == [a, b, c] && [a, b, c] + [d] == [a, b, c, d];
    ObserveLast(h, w, [], a);
    ObserveLast(h, w, [a], b);
    ObserveLast(h, w, [a, b], c);
    ObserveLast(h, w, [a, b, c], d);
  }

  /** For every request that passes the gates: after the late record the aggregate row still shows the
      estimate as unknown, and no run does. */
  lemma LateRecordStrands(h: Host, config: Config, q: Request, grant: Id, run: Id, spent: real)
    requires Gate(h, config, q).None? && Trim(q.token) == q.token && spent >= 0.0
    ensures var d := Reach(h, config, LateHistory(q, grant, run, spent)).db;
            d.costs.unknown == Estimate(q) > 0.0 && Sum(d.runs, UnknownOf) == 0.0
  {
    var es := LateHistory(q, grant, run, spent);
    ObserveFour(h, World(Empty(config), NoBooks), es[0], es[1], es[2], es[3]);
    var issued := Apply(h, Empty(config), es[0]);
    ReserveAdmits(h, issued, config, q, run);
    var reserved := Apply(h, issued, es[1]);
    RecoveryCloses(reserved, reserved.runs[0], Estimate(q));
    var recovered := Apply(h, reserved, es[2]);
    RecordOverwrites(recovered, recovered.runs[0], Estimate(q), spent);
  }
}
